/**
 * The cell values a worksheet row holds once the spreadsheet library has
 * turned it into an array (`sheet_to_json` with `header: 1`), and the few
 * JavaScript conversions the parser applies to them.
 */
module Cells {
  import opened Strings

  /** A cell: missing (null, undefined or a hole), a whole number, text or a boolean. */
  datatype Cell = Blank | Num(n: int) | Str(s: string) | Bool(b: bool)

  type Row = seq<Cell>

  /** JavaScript truthiness of a cell value. */
  predicate Truthy(c: Cell) {
    match c
    case Blank => false
    case Num(n) => n != 0
    case Str(s) => s != ""
    case Bool(b) => b
  }

  /** `row[i]`: reading past either end yields undefined. */
  function CellAt(row: Row, i: int): (c: Cell)
    ensures !(0 <= i < |row|) ==> c == Blank
    ensures 0 <= i < |row| ==> c == row[i]
  {
    if 0 <= i < |row| then row[i] else Blank
  }

  /** `String(c || "")`: a falsy cell becomes the empty string, any other its text. */
  function CellText(c: Cell): (r: string)
    ensures r == [] <==> !Truthy(c)
    ensures c.Str? ==> r == c.s
  {
    match c
    case Blank => ""
    case Num(n) => if n == 0 then "" else IntToString(n)
    case Str(s) => s
    case Bool(b) => if b then "true" else ""
  }

  /** `idx >= 0 ? String(row[idx] || "").trim() : ""`: the trimmed text of a detected column. */
  function FieldText(row: Row, idx: int): (r: string)
    ensures idx < 0 || idx >= |row| ==> r == []
    ensures 0 <= idx < |row| ==> r == Trim(CellText(row[idx]))
  {
    if idx >= 0 then Trim(CellText(CellAt(row, idx))) else ""
  }

  /** A cell counts as data unless it is null, undefined, "", "null" or "undefined". */
  predicate IsDataCell(c: Cell) {
    !(c.Blank? || c == Str("") || c == Str("null") || c == Str("undefined"))
  }

  ghost predicate HasData(row: Row) {
    exists j :: 0 <= j < |row| && IsDataCell(row[j])
  }

  /** The parser's fast scan: stop at the first cell that holds data. */
  method RowHasData(row: Row) returns (hasData: bool)
    ensures hasData <==> HasData(row)
  {
    hasData := false;
    var j := 0;
    while j < |row|
      invariant 0 <= j <= |row|
      invariant forall k :: 0 <= k < j ==> !IsDataCell(row[k])
    {
      if IsDataCell(row[j]) {
        hasData := true;
        break;
      }
      j := j + 1;
    }
  }
}
