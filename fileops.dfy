/**
 * Saving the editor's document to a JSON file and loading one back (`useFileOperations`).
 * Loading rebuilds every spreadsheet in the Fortune-Sheet shape the editor expects: a sheet
 * saved as a 2-D `data` grid has its cells rebuilt as `celldata` entries carrying their row and
 * column, every cell list is filtered to well-formed cells, and missing sheet settings get
 * their defaults.
 */
module FileOps {
  import opened Wrappers
  import opened Json
  import Text
  import Lists

  /** The name of the downloaded file. */
  const SaveFileName := "design-document.json"

  /** The MIME type a file must have to be loaded. */
  const JsonMime := "application/json"

  /** A row or column index as the number JavaScript holds. */
  function Num(n: nat): Json
  {
    JNum(n as real, Text.NatToString(n))
  }

  /** The cell type a rebuilt cell gets when it has none: general format. */
  const DefaultCellType: Json := JObj([Member("fa", JStr("General")), Member("t", JStr("g"))])

  /** The cell formatting keys copied from a stored cell: font, colours, alignment, wrapping. */
  const FormatKeys: seq<string> := ["ff", "fc", "fs", "bl", "it", "bg", "ht", "vt", "tr", "tb"]

  /** The formatting members of `cell`, each under its own key (undefined when absent). */
  function FormatMembers(cell: Json): (r: seq<Member>)
    ensures |r| == |FormatKeys|
    ensures forall k :: 0 <= k < |r| ==> r[k].key == FormatKeys[k]
    ensures forall m :: m in r ==> m.key in FormatKeys && m.value == Get(cell, m.key)
  {
    seq(|FormatKeys|, k requires 0 <= k < |FormatKeys| => Member(FormatKeys[k], Get(cell, FormatKeys[k])))
  }

  /** The formatting values of `cell`, in the order of `FormatKeys`. */
  function FormatValues(cell: Json): (r: seq<Json>)
    ensures |r| == |FormatKeys|
  {
    seq(|FormatKeys|, k requires 0 <= k < |FormatKeys| => Get(cell, FormatKeys[k]))
  }

  /** `null`, `undefined` or the empty string: the entries a grid and a cell value may leave empty. */
  predicate IsEmptyEntry(v: Json)
  {
    v.JNull? || v.JUndef? || v == JStr("")
  }

  /** A cell object of the stored grid: an object with a `v` member (an array has none). */
  predicate IsStoredCell(cell: Json)
  {
    cell.JObj? && Get(cell, "v") != JUndef
  }

  /** A `celldata` entry at row `r` and column `c` with the given cell value members. */
  function CellEntry(r: nat, c: nat, value: seq<Member>): Json
  {
    JObj([Member("r", Num(r)), Member("c", Num(c)), Member("v", JObj(value))])
  }

  lemma CellEntryParts(r: nat, c: nat, value: seq<Member>)
    ensures var x := CellEntry(r, c, value);
            Get(x, "r") == Num(r) && Get(x, "c") == Num(c) && Get(x, "v") == JObj(value)
  {
    var ms := CellEntry(r, c, value).members;
    LookupAt(ms, 0, "r");
    LookupAt(ms, 1, "c");
  }

  /** The value members of a rebuilt stored cell: its value, its text, its type and its formatting. */
  function StoredValue(cell: Json): seq<Member>
  {
    var v := Get(cell, "v");
    [Member("v", v), Member("m", JStr(ToJsString(Or(Get(cell, "m"), v)))),
     Member("ct", Or(Get(cell, "ct"), DefaultCellType))] + FormatMembers(cell)
  }

  /** The value members of a rebuilt plain value printed as `text`. */
  function PlainValue(cell: Json, text: string): seq<Member>
  {
    [Member("v", cell), Member("m", JStr(text)), Member("ct", DefaultCellType)]
  }

  /**
   * The `celldata` entry the grid cell at row `r`, column `c` becomes, or None when it is
   * skipped: empty entries, stored cells whose value is empty, and plain values that print as
   * whitespace only.
   */
  function ConvertCell(cell: Json, r: nat, c: nat): Option<Json>
  {
    if IsEmptyEntry(cell) then None
    else if IsStoredCell(cell) then
      if IsEmptyEntry(Get(cell, "v")) then None else Some(CellEntry(r, c, StoredValue(cell)))
    else
      var text := ToJsString(cell);
      if Text.Trim(text) == "" then None else Some(CellEntry(r, c, PlainValue(cell, text)))
  }

  function Entries(o: Option<Json>): seq<Json>
  {
    match o
    case None => []
    case Some(x) => [x]
  }

  /** How one grid cell at a row and a column becomes an entry, or is skipped. */
  type Conversion = (Json, nat, nat) -> Option<Json>

  /** The entries the first `n` cells of grid row `row` (row index `r`) become, in column order. */
  function RowCells(row: seq<Json>, r: nat, n: nat, convert: Conversion): seq<Json>
    requires n <= |row|
  {
    if n == 0 then [] else RowCells(row, r, n - 1, convert) + Entries(convert(row[n - 1], r, n - 1))
  }

  /** The entries the first `n` rows of the grid become, row by row; a row that is not an array adds none. */
  function GridCells(data: seq<Json>, n: nat, convert: Conversion): seq<Json>
    requires n <= |data|
  {
    if n == 0 then []
    else
      var row := data[n - 1];
      GridCells(data, n - 1, convert) + (if row.JArr? then RowCells(row.items, n - 1, |row.items|, convert) else [])
  }

  /** The entries the whole grid becomes under the loader's conversion. */
  function DataCells(data: seq<Json>): seq<Json>
  {
    GridCells(data, |data|, ConvertCell)
  }

  /** One grid row converted by a pass that pushes each kept entry onto `cells`. */
  method ConvertRow(row: seq<Json>, r: nat, start: seq<Json>, convert: Conversion) returns (cells: seq<Json>)
    ensures cells == start + RowCells(row, r, |row|, convert)
  {
    cells := start;
    var j := 0;
    while j < |row|
      invariant 0 <= j <= |row|
      invariant cells == start + RowCells(row, r, j, convert)
    {
      var entry := convert(row[j], r, j);
      if entry.Some? {
        cells := cells + [entry.value];
      }
      j := j + 1;
    }
  }

  /**
   * The grid conversion: every array row in order through `ConvertRow`, each cell through
   * `convert` (the loader passes `ConvertCell`).
   */
  method ConvertData(data: seq<Json>, convert: Conversion) returns (cells: seq<Json>)
    ensures cells == GridCells(data, |data|, convert)
  {
    cells := [];
    var i := 0;
    while i < |data|
      invariant 0 <= i <= |data|
      invariant cells == GridCells(data, i, convert)
    {
      if data[i].JArr? {
        cells := ConvertRow(data[i].items, i, cells, convert);
      }
      i := i + 1;
    }
  }

  /**
   * The cell filter applied to every loaded cell list: a cell needs numeric `r` and `c` and a
   * value object whose own `v` is not empty.
   */
  predicate KeepCell(cell: Json)
  {
    Truthy(cell) && IsNumber(Get(cell, "r")) && IsNumber(Get(cell, "c"))
    && Truthy(Get(cell, "v")) && !IsEmptyEntry(Get(Get(cell, "v"), "v"))
  }

  datatype CellValue = CellValue(v: Json, m: string, ct: Json, format: seq<Json>)

  /** A loaded cell: its coordinates, its value, the text shown and its formatting. */
  datatype SheetCell = SheetCell(r: real, c: real, v: CellValue)

  /** The cell the loader keeps for a cell that passed the filter. */
  function NormaliseCell(cell: Json): SheetCell
    requires KeepCell(cell)
  {
    var value := Get(cell, "v");
    var v := Get(value, "v");
    SheetCell(Get(cell, "r").n, Get(cell, "c").n,
              CellValue(v, ToJsString(Or(Get(value, "m"), v)), Or(Get(value, "ct"), DefaultCellType), FormatValues(value)))
  }

  /** The filtered and rebuilt cell list. */
  function NormaliseCells(cells: seq<Json>): (r: seq<SheetCell>)
    ensures |r| <= |cells|
  {
    var kept := Lists.Filter(cells, KeepCell);
    seq(|kept|, i requires 0 <= i < |kept| => assert kept[i] in kept; NormaliseCell(kept[i]))
  }

  datatype SheetConfig = SheetConfig(merge: Json, rowlen: Json, columnlen: Json, rowhidden: Json,
                                     colhidden: Json, borderInfo: Json, authority: Json)

  datatype Sheet = Sheet(name: Json, id: Json, status: Json, order: Json, hide: Json, row: Json,
                         column: Json, defaultRowHeight: Json, defaultColWidth: Json,
                         celldata: seq<SheetCell>, config: SheetConfig)

  const EmptyObject: Json := JObj([])

  /** The sheet's layout settings, each defaulting to empty when missing or falsy. */
  function Config(sheet: Json): SheetConfig
  {
    var config := Get(sheet, "config");
    SheetConfig(Or(Get(config, "merge"), EmptyObject), Or(Get(config, "rowlen"), EmptyObject),
                Or(Get(config, "columnlen"), EmptyObject), Or(Get(config, "rowhidden"), EmptyObject),
                Or(Get(config, "colhidden"), EmptyObject), Or(Get(config, "borderInfo"), JArr([])),
                Or(Get(config, "authority"), EmptyObject))
  }

  /** The cell list before filtering: the rebuilt grid when the sheet has one, else its own `celldata` or []. */
  function RawCells(sheet: Json): Json
  {
    var data := Get(sheet, "data");
    if data.JArr? then JArr(DataCells(data.items)) else Or(Get(sheet, "celldata"), JArr([]))
  }

  /** The sheet with the given settings and cells; missing settings take their defaults. */
  function BuildSheet(sheet: Json, index: nat, cells: seq<SheetCell>): Sheet
  {
    var order := Get(sheet, "order");
    Sheet(Or(Get(sheet, "name"), JStr("Sheet" + Text.NatToString(index + 1))), Get(sheet, "id"),
          Or(Get(sheet, "status"), Num(1)), if order != JUndef then order else Num(index),
          Or(Get(sheet, "hide"), Num(0)), Or(Get(sheet, "row"), Num(100)), Or(Get(sheet, "column"), Num(26)),
          Or(Get(sheet, "defaultRowHeight"), Num(19)), Or(Get(sheet, "defaultColWidth"), Num(73)),
          cells, Config(sheet))
  }

  /**
   * Sheet number `index` as loaded, or None where loading throws: a cell list that is not an
   * array has no `filter`, and a `null` sheet has no `name`.
   */
  function NormaliseSheet(sheet: Json, index: nat): Option<Sheet>
  {
    var raw := RawCells(sheet);
    if !raw.JArr? || sheet.JNull? || sheet.JUndef? then None
    else Some(BuildSheet(sheet, index, NormaliseCells(raw.items)))
  }

  /** One sheet, the grid converted by the nested passes. */
  method LoadSheet(sheet: Json, index: nat) returns (r: Option<Sheet>)
    ensures r == NormaliseSheet(sheet, index)
  {
    var raw := Or(Get(sheet, "celldata"), JArr([]));
    var data := Get(sheet, "data");
    if data.JArr? {
      var cells := ConvertData(data.items, ConvertCell);
      raw := JArr(cells);
    }
    if !raw.JArr? || sheet.JNull? || sheet.JUndef? {
      return None;
    }
    r := Some(BuildSheet(sheet, index, NormaliseCells(raw.items)));
  }

  /** Every sheet loaded, or None when any of them throws. */
  function NormaliseAll(sheets: seq<Json>): (r: Option<seq<Sheet>>)
    ensures r.None? <==> exists i :: 0 <= i < |sheets| && NormaliseSheet(sheets[i], i).None?
    ensures r.Some? ==> |r.value| == |sheets|
                        && forall i :: 0 <= i < |sheets| ==> NormaliseSheet(sheets[i], i) == Some(r.value[i])
  {
    if exists i :: 0 <= i < |sheets| && NormaliseSheet(sheets[i], i).None? then None
    else Some(seq(|sheets|, i requires 0 <= i < |sheets| => NormaliseSheet(sheets[i], i).value))
  }

  /** The sheets of a loaded document: its `spreadsheet` when that is an array, else none. */
  function SheetsOf(doc: Json): seq<Json>
  {
    var sheets := Get(doc, "spreadsheet");
    if sheets.JArr? then sheets.items else []
  }

  /** What loading a file does: refuse a non-JSON file, fail (alert), or set the four editor fields. */
  datatype LoadOutcome =
    | NotJsonFile
    | LoadFailed
    | Loaded(conditions: Json, supplement: Json, sheets: seq<Sheet>, mockup: Json)

  /**
   * Loading a file of the given MIME type whose text parses to `parsed` (None when it is not
   * JSON): a `null` document throws at its `spreadsheet`, and so does any sheet that throws;
   * otherwise the texts default to '' and the mockup to `null`.
   */
  function LoadResult(mime: string, parsed: Option<Json>): LoadOutcome
  {
    if mime != JsonMime then NotJsonFile
    else match parsed
      case None => LoadFailed
      case Some(doc) =>
        if doc.JNull? || doc.JUndef? then LoadFailed
        else match NormaliseAll(SheetsOf(doc))
          case None => LoadFailed
          case Some(sheets) =>
            Loaded(Or(Get(doc, "conditions"), JStr("")), Or(Get(doc, "supplement"), JStr("")),
                   sheets, Or(Get(doc, "mockup"), JNull))
  }

  /** A sheet that does not normalise makes the whole conversion fail. */
  lemma NormaliseAllFailsAt(sheets: seq<Json>, i: nat)
    requires i < |sheets| && NormaliseSheet(sheets[i], i).None?
    ensures NormaliseAll(sheets) == None
  {
  }

  /** When every sheet normalises, the conversion yields exactly the normalised sheets. */
  lemma NormaliseAllOf(sheets: seq<Json>, loaded: seq<Sheet>)
    requires |loaded| == |sheets|
    requires forall k :: 0 <= k < |loaded| ==> NormaliseSheet(sheets[k], k) == Some(loaded[k])
    ensures NormaliseAll(sheets) == Some(loaded)
  {
    var all := NormaliseAll(sheets);
    assert all.Some?;
    assert all.value == loaded;
  }

  /** One more converted sheet extends the converted prefix. */
  lemma LoadedStep(sheets: seq<Json>, loaded: seq<Sheet>, x: Sheet, i: nat, j: nat)
    requires i < |sheets| && |loaded| == i && j == i + 1
    requires forall k :: 0 <= k < i ==> NormaliseSheet(sheets[k], k) == Some(loaded[k])
    requires NormaliseSheet(sheets[i], i) == Some(x)
    ensures forall k :: 0 <= k < j ==> NormaliseSheet(sheets[k], k) == Some((loaded + [x])[k])
  {
  }

  /** The sheets are converted one after the other; the first throw ends the conversion. */
  method LoadSheets(sheets: seq<Json>) returns (r: Option<seq<Sheet>>)
    ensures r == NormaliseAll(sheets)
  {
    var loaded: seq<Sheet> := [];
    var i := 0;
    while i < |sheets|
      invariant 0 <= i <= |sheets| && |loaded| == i
      invariant forall k :: 0 <= k < i ==> NormaliseSheet(sheets[k], k) == Some(loaded[k])
    {
      var sheet := LoadSheet(sheets[i], i);
      if sheet.None? {
        NormaliseAllFailsAt(sheets, i);
        return None;
      }
      ghost var k, before := i, loaded;
      loaded := loaded + [sheet.value];
      i := i + 1;
      LoadedStep(sheets, before, sheet.value, k, i);
    }
    NormaliseAllOf(sheets, loaded);
    r := Some(loaded);
  }

  /** The load handler: refuse a non-JSON file, fail on a bad document or sheet, else set the fields. */
  method Load(mime: string, parsed: Option<Json>) returns (r: LoadOutcome)
    ensures r == LoadResult(mime, parsed)
  {
    if mime != JsonMime {
      return NotJsonFile;
    }
    if parsed.None? || parsed.value.JNull? || parsed.value.JUndef? {
      return LoadFailed;
    }
    var doc := parsed.value;
    var loaded := LoadSheets(SheetsOf(doc));
    if loaded.None? {
      return LoadFailed;
    }
    r := Loaded(Or(Get(doc, "conditions"), JStr("")), Or(Get(doc, "supplement"), JStr("")),
                loaded.value, Or(Get(doc, "mockup"), JNull));
  }

  /** The saved document: the two texts, the sheets as they are, the mockup and the save time. */
  function SaveData(conditions: string, supplement: string, spreadsheet: Json, mockup: Option<string>,
                    timestamp: string): Json
  {
    JObj([Member("conditions", JStr(conditions)), Member("supplement", JStr(supplement)),
          Member("spreadsheet", spreadsheet),
          Member("mockup", match mockup case Some(m) => JStr(m) case None => JNull),
          Member("timestamp", JStr(timestamp))])
  }

  // ---------------------------------------------------------------------------------------
  // Properties of the loader
  // ---------------------------------------------------------------------------------------

  lemma StoredValueParts(cell: Json)
    ensures Lookup(StoredValue(cell), "v") == Get(cell, "v")
  {
    var ms := StoredValue(cell);
    assert "v" !in FormatKeys;
    forall j | 0 < j < |ms| ensures ms[j].key != "v" {
      if j >= 3 {
        assert ms[j] in FormatMembers(cell);
      }
    }
    LookupAt(ms, 0, "v");
  }

  lemma PlainValueParts(cell: Json, text: string)
    ensures Lookup(PlainValue(cell, text), "v") == cell
    ensures Lookup(PlainValue(cell, text), "m") == JStr(text)
  {
    LookupAt(PlainValue(cell, text), 0, "v");
    LookupAt(PlainValue(cell, text), 1, "m");
  }

  /** An entry whose value is not empty passes the filter and keeps its coordinates and value. */
  lemma EntryKept(r: nat, c: nat, value: seq<Member>)
    requires !IsEmptyEntry(Lookup(value, "v"))
    ensures KeepCell(CellEntry(r, c, value))
    ensures NormaliseCell(CellEntry(r, c, value)).r == r as real
    ensures NormaliseCell(CellEntry(r, c, value)).c == c as real
    ensures NormaliseCell(CellEntry(r, c, value)).v.v == Lookup(value, "v")
    ensures NormaliseCell(CellEntry(r, c, value)).v.m == ToJsString(Or(Lookup(value, "m"), Lookup(value, "v")))
  {
    CellEntryParts(r, c, value);
  }

  /**
   * A rebuilt cell passes the cell filter, sits at the row and column it had in the grid,
   * and keeps the grid's value: a stored cell's own `v`, or the plain value itself.
   */
  lemma ConvertedCellShape(cell: Json, r: nat, c: nat)
    ensures IsEmptyEntry(cell) ==> ConvertCell(cell, r, c).None?
    ensures ConvertCell(cell, r, c).Some? ==>
              var x := ConvertCell(cell, r, c).value;
              KeepCell(x) && NormaliseCell(x).r == r as real && NormaliseCell(x).c == c as real
              && NormaliseCell(x).v.v == (if IsStoredCell(cell) then Get(cell, "v") else cell)
  {
    if !IsEmptyEntry(cell) {
      if IsStoredCell(cell) {
        StoredValueParts(cell);
        if !IsEmptyEntry(Get(cell, "v")) {
          EntryKept(r, c, StoredValue(cell));
        }
      } else {
        var text := ToJsString(cell);
        PlainValueParts(cell, text);
        EntryKept(r, c, PlainValue(cell, text));
      }
    }
  }

  /** A text cell is kept exactly when it is not all whitespace, and then shows that text. */
  lemma TextCellKeptIffNotBlank(s: string, r: nat, c: nat)
    ensures ConvertCell(JStr(s), r, c).Some? <==> !Text.Blank(Text.Js, s)
    ensures ConvertCell(JStr(s), r, c).Some? ==>
              var x := ConvertCell(JStr(s), r, c).value;
              KeepCell(x) && NormaliseCell(x).v.m == s
  {
    TextCellConverted(s, r, c);
    Text.TrimEmptyIffBlank(Text.Js, s);
    if !Text.Blank(Text.Js, s) {
      PlainEntryKept(s, r, c);
    }
  }

  /** A text cell becomes the plain entry of its text unless that text trims to nothing. */
  lemma TextCellConverted(s: string, r: nat, c: nat)
    ensures ConvertCell(JStr(s), r, c) ==
            if Text.Trim(s) == "" then None else Some(CellEntry(r, c, PlainValue(JStr(s), s)))
  {
    assert !IsStoredCell(JStr(s)) && ToJsString(JStr(s)) == s;
  }

  /** The plain entry of a non-empty text passes the filter and shows that text. */
  lemma PlainEntryKept(s: string, r: nat, c: nat)
    requires s != ""
    ensures KeepCell(CellEntry(r, c, PlainValue(JStr(s), s)))
    ensures NormaliseCell(CellEntry(r, c, PlainValue(JStr(s), s))).v.m == s
  {
    PlainValueParts(JStr(s), s);
    EntryKept(r, c, PlainValue(JStr(s), s));
  }

  lemma RowCellsAt(row: seq<Json>, r: nat, n: nat, convert: Conversion)
    requires n <= |row|
    ensures forall x :: x in RowCells(row, r, n, convert) <==>
              exists c :: 0 <= c < n && convert(row[c], r, c) == Some(x)
  {
    if n > 0 {
      RowCellsAt(row, r, n - 1, convert);
    }
  }

  /** `x` is the entry of some grid cell among the first `n` rows. */
  predicate FromGrid(data: seq<Json>, n: nat, convert: Conversion, x: Json)
    requires n <= |data|
  {
    exists r, c :: 0 <= r < n && data[r].JArr? && 0 <= c < |data[r].items|
                   && convert(data[r].items[c], r, c) == Some(x)
  }

  /**
   * The rebuilt grid holds exactly the converted non-skipped cells: each entry comes from
   * some array row `r` and column `c`, and each kept cell of the grid is there.
   */
  lemma {:induction false} GridCellsAt(data: seq<Json>, n: nat, convert: Conversion)
    requires n <= |data|
    ensures forall x :: x in GridCells(data, n, convert) <==> FromGrid(data, n, convert, x)
  {
    if n > 0 {
      GridCellsAt(data, n - 1, convert);
      var row := data[n - 1];
      var last := if row.JArr? then RowCells(row.items, n - 1, |row.items|, convert) else [];
      assert GridCells(data, n, convert) == GridCells(data, n - 1, convert) + last;
      if row.JArr? {
        RowCellsAt(row.items, n - 1, |row.items|, convert);
      }
      forall x ensures x in GridCells(data, n, convert) <==> FromGrid(data, n, convert, x) {
        if x in GridCells(data, n - 1, convert) {
          var r, c :| 0 <= r < n - 1 && data[r].JArr? && 0 <= c < |data[r].items|
                      && convert(data[r].items[c], r, c) == Some(x);
          assert FromGrid(data, n, convert, x);
        } else if x in last {
          var c :| 0 <= c < |row.items| && convert(row.items[c], n - 1, c) == Some(x);
          assert FromGrid(data, n, convert, x);
        }
        if FromGrid(data, n, convert, x) {
          var r, c :| 0 <= r < n && data[r].JArr? && 0 <= c < |data[r].items|
                      && convert(data[r].items[c], r, c) == Some(x);
          if r < n - 1 {
            assert FromGrid(data, n - 1, convert, x);
          } else {
            assert x in last;
          }
        }
      }
    }
  }

  /** Every entry of a rebuilt grid passes the cell filter. */
  lemma DataCellsKept(data: seq<Json>)
    ensures forall x :: x in DataCells(data) ==> KeepCell(x)
  {
    GridCellsAt(data, |data|, ConvertCell);
    forall x | x in DataCells(data) ensures KeepCell(x) {
      var r, c :| 0 <= r < |data| && data[r].JArr? && 0 <= c < |data[r].items|
                  && ConvertCell(data[r].items[c], r, c) == Some(x);
      ConvertedCellShape(data[r].items[c], r, c);
    }
  }

  /** `cell` sits at the row and column of a kept cell of the grid `data`. */
  predicate AtGridCell(data: seq<Json>, cell: SheetCell)
  {
    exists r, c :: 0 <= r < |data| && data[r].JArr? && 0 <= c < |data[r].items|
                   && ConvertCell(data[r].items[c], r, c).Some?
                   && cell.r == r as real && cell.c == c as real
  }

  /**
   * A sheet stored as a grid loads with one cell per non-skipped grid cell, each at the row
   * and column of the grid it came from.
   */
  lemma GridSheetCoordinates(sheet: Json, index: nat)
    requires sheet.JObj? && Get(sheet, "data").JArr?
    ensures NormaliseSheet(sheet, index).Some?
    ensures |NormaliseSheet(sheet, index).value.celldata| == |DataCells(Get(sheet, "data").items)|
    ensures var data := Get(sheet, "data").items;
            var cells := NormaliseSheet(sheet, index).value.celldata;
            forall k :: 0 <= k < |cells| ==> AtGridCell(data, cells[k])
  {
    var data := Get(sheet, "data").items;
    var grid := DataCells(data);
    DataCellsKept(data);
    Lists.FilterAll(grid, KeepCell);
    assert RawCells(sheet) == JArr(grid);
    assert NormaliseSheet(sheet, index) == Some(BuildSheet(sheet, index, NormaliseCells(grid)));
    var cells := NormaliseSheet(sheet, index).value.celldata;
    assert cells == NormaliseCells(grid);
    assert |cells| == |grid|;
    forall k | 0 <= k < |cells| ensures AtGridCell(data, cells[k]) {
      assert grid[k] in grid;
      GridCellsAt(data, |data|, ConvertCell);
      var r, c :| 0 <= r < |data| && data[r].JArr? && 0 <= c < |data[r].items|
                  && ConvertCell(data[r].items[c], r, c) == Some(grid[k]);
      ConvertedCellShape(data[r].items[c], r, c);
      assert cells[k] == NormaliseCell(grid[k]);
      assert cells[k].r == r as real && cells[k].c == c as real;
    }
  }

  /** A document whose `spreadsheet` is not an array loads with no sheets. */
  lemma NonArraySpreadsheetLoadsEmpty(doc: Json)
    requires doc.JObj? && !Get(doc, "spreadsheet").JArr?
    ensures LoadResult(JsonMime, Some(doc)).Loaded?
    ensures LoadResult(JsonMime, Some(doc)).sheets == []
  {
    assert SheetsOf(doc) == [];
  }

  /** A `null` sheet anywhere makes the whole load fail, and so does a `null` document. */
  lemma NullSheetFailsLoad(doc: Json, i: nat)
    requires i < |SheetsOf(doc)| && SheetsOf(doc)[i].JNull?
    ensures LoadResult(JsonMime, Some(doc)) == LoadFailed
    ensures LoadResult(JsonMime, Some(JNull)) == LoadFailed
  {
    assert NormaliseSheet(SheetsOf(doc)[i], i).None?;
  }

  /**
   * Loading a saved document gives back its texts and its mockup (an empty mockup comes back
   * as `null`), whatever the sheets; with no sheets the load succeeds.
   */
  lemma SaveLoadRoundTrip(conditions: string, supplement: string, spreadsheet: Json,
                          mockup: Option<string>, timestamp: string)
    ensures var r := LoadResult(JsonMime, Some(SaveData(conditions, supplement, spreadsheet, mockup, timestamp)));
            (r.Loaded? <==> NormaliseAll(if spreadsheet.JArr? then spreadsheet.items else []).Some?)
            && (r.Loaded? ==>
                  r.conditions == JStr(conditions) && r.supplement == JStr(supplement)
                  && r.mockup == (if mockup.Some? && mockup.value != "" then JStr(mockup.value) else JNull))
  {
    var ms := SaveData(conditions, supplement, spreadsheet, mockup, timestamp).members;
    LookupAt(ms, 0, "conditions");
    LookupAt(ms, 1, "supplement");
    LookupAt(ms, 2, "spreadsheet");
    LookupAt(ms, 3, "mockup");
  }

  /**
   * A sheet without a grid whose cells already have the loaded shape keeps every cell, at
   * the same coordinates.
   */
  lemma WellFormedCellsKept(sheet: Json, index: nat, cells: seq<Json>)
    requires sheet.JObj? && !Get(sheet, "data").JArr? && Get(sheet, "celldata") == JArr(cells)
    requires forall k :: 0 <= k < |cells| ==> KeepCell(cells[k])
    ensures NormaliseSheet(sheet, index).Some?
    ensures var loaded := NormaliseSheet(sheet, index).value.celldata;
            |loaded| == |cells|
            && forall k :: 0 <= k < |cells| ==>
                 KeepCell(cells[k]) && loaded[k].r == Get(cells[k], "r").n && loaded[k].c == Get(cells[k], "c").n
                 && loaded[k].v.v == Get(Get(cells[k], "v"), "v")
  {
    forall x | x in cells ensures KeepCell(x) {
      var k :| 0 <= k < |cells| && cells[k] == x;
    }
    Lists.FilterAll(cells, KeepCell);
  }

  /**
   * A sheet with none of its settings gets the defaults: `Sheet<i+1>`, status 1, its index
   * as order, 100 rows, 26 columns, empty layout maps and no cells.
   */
  lemma EmptySheetDefaults(index: nat)
    ensures NormaliseSheet(EmptyObject, index).Some?
    ensures var sheet := NormaliseSheet(EmptyObject, index).value;
            sheet.name == JStr("Sheet" + Text.NatToString(index + 1))
            && sheet.status == Num(1) && sheet.order == Num(index) && sheet.hide == Num(0)
            && sheet.row == Num(100) && sheet.column == Num(26)
            && sheet.defaultRowHeight == Num(19) && sheet.defaultColWidth == Num(73)
            && sheet.celldata == []
            && sheet.config == SheetConfig(EmptyObject, EmptyObject, EmptyObject, EmptyObject,
                                           EmptyObject, JArr([]), EmptyObject)
  {
    assert RawCells(EmptyObject) == JArr([]);
    assert Lists.Filter([], KeepCell) == [];
  }
}
