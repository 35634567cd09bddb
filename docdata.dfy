/**
 * The editable content of one design document as the chat panels, the AI services, the
 * modification engine and the backup service see it (`WebUIData`).
 */
module DocData {
  import opened Wrappers

  /** A spreadsheet cell at row `r`, column `c`, whose text value is `v` (`v.v`; '' when missing). */
  datatype Cell = Cell(r: int, c: int, v: string)

  /** A spreadsheet sheet; `celldata` may be missing. */
  datatype Sheet = Sheet(name: string, celldata: Option<seq<Cell>>, row: int, column: int)

  /**
   * The document content: two Markdown fields, the sheets, the mock-up image (a data URL or
   * null) and the Mermaid text ('' when the document has none).
   */
  datatype WebUIData = WebUIData(
    conditions: string,
    supplement: string,
    sheets: seq<Sheet>,
    mockup: Option<string>,
    mermaid: string)

  /** `data.spreadsheetData[0]?.celldata`, empty when there is no sheet or no cell list. */
  function FirstSheetCells(data: WebUIData): seq<Cell>
  {
    if |data.sheets| == 0 then []
    else data.sheets[0].celldata.GetOr([])
  }

  /** A mock-up counts as present when it is a non-empty string. */
  predicate HasMockup(data: WebUIData)
  {
    data.mockup.Some? && data.mockup.value != ""
  }
}
