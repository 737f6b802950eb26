/**
 * The export pipeline: every scraped item becomes a five-key row kept in
 * memory; when the crawl closes, the rows become a sheet whose columns carry
 * display names in a fixed order, and each column gets a width derived from
 * its longest cell. Writing the workbook, its styling and its saving are not
 * modelled; the sheet value stands for the written table.
 */
module Pipelines {
  import opened Wrappers
  import opened Strings
  import opened Items

  /** A stored row: internal key to cell text. */
  type Row = map<string, string>

  /** The internal keys of a stored row, in the order the row dictionary lists them. */
  const InternalKeys: seq<string> :=
    ["company_name", "company_website", "founders_name", "founders_linkedin", "founders_twitter"]

  /** The rename applied to the columns before export. */
  const ColumnMapping: map<string, string> := map[
    "company_name" := "Company Name",
    "company_website" := "Company Website",
    "founders_name" := "Founder's Name",
    "founders_linkedin" := "Founders LinkedIn",
    "founders_twitter" := "Founders Twitter"
  ]

  /** The order the exported columns follow. */
  const ColumnOrder: seq<string> :=
    ["Company Name", "Company Website", "Founder's Name", "Founders LinkedIn", "Founders Twitter"]

  /** The widest a column is ever made. */
  const MaxColumnWidth: nat := 50

  /** The padding added to the longest cell text. */
  const WidthPadding: nat := 2

  // ---------------------------------------------------------------------
  // Rows
  // ---------------------------------------------------------------------

  /** A row exactly as `process_item` stores it: the five internal keys and no other. */
  predicate IsRow(row: Row) {
    && (forall k :: k in InternalKeys ==> k in row)
    && (forall k :: k in row ==> k in InternalKeys)
  }

  /** The item field stored under the `i`-th internal key. */
  function FieldAt(item: YcCompanyItem, i: nat): Option<string>
    requires i < |InternalKeys|
  {
    match i
    case 0 => item.company_name
    case 1 => item.company_website
    case 2 => item.founders_name
    case 3 => item.founders_linkedin
    case _ => item.founders_twitter
  }

  /** `adapter.get(field, '')`: the field's value, or `''` when the item never set it. */
  function FieldText(field: Option<string>): string {
    field.GetOr("")
  }

  /** The row `process_item` builds from an item: every key present, whatever the item left unset. */
  function RowOf(item: YcCompanyItem): (row: Row)
    ensures IsRow(row)
  {
    map[
      "company_name" := FieldText(item.company_name),
      "company_website" := FieldText(item.company_website),
      "founders_name" := FieldText(item.founders_name),
      "founders_linkedin" := FieldText(item.founders_linkedin),
      "founders_twitter" := FieldText(item.founders_twitter)
    ]
  }

  /** Reads a stored row back as an item with every field set. */
  function ItemOf(row: Row): (item: YcCompanyItem)
    requires IsRow(row)
    ensures forall i :: 0 <= i < |InternalKeys| ==> FieldAt(item, i) == Some(row[InternalKeys[i]])
  {
    YcCompanyItem(
      Some(row["company_name"]),
      Some(row["company_website"]),
      Some(row["founders_name"]),
      Some(row["founders_linkedin"]),
      Some(row["founders_twitter"]))
  }

  /** An item whose five fields are all set is stored without loss. */
  lemma RowRoundTrip(item: YcCompanyItem)
    requires forall i :: 0 <= i < |InternalKeys| ==> FieldAt(item, i).Some?
    ensures ItemOf(RowOf(item)) == item
  {
    assert FieldAt(item, 0).Some? && FieldAt(item, 1).Some? && FieldAt(item, 2).Some?;
    assert FieldAt(item, 3).Some? && FieldAt(item, 4).Some?;
  }

  /** Each cell of the stored row is its field's text, and a field the item never set is stored as `''`. */
  lemma RowCells(item: YcCompanyItem, i: nat)
    requires i < |InternalKeys|
    ensures RowOf(item)[InternalKeys[i]] == FieldText(FieldAt(item, i))
    ensures FieldAt(item, i).None? ==> RowOf(item)[InternalKeys[i]] == ""
  {
  }

  // ---------------------------------------------------------------------
  // Column names and order
  // ---------------------------------------------------------------------

  /** `DataFrame.rename(columns=...)`: a mapped column gets its display name, any other keeps its name. */
  function Rename(column: string): (display: string)
    ensures column !in ColumnMapping ==> display == column
    ensures column in InternalKeys ==> display in ColumnOrder
  {
    if column in ColumnMapping then ColumnMapping[column] else column
  }

  /** The internal key a display name comes from; names outside the display order map to themselves. */
  function Unrename(display: string): (column: string)
    ensures display in ColumnOrder ==> column in InternalKeys
  {
    if display == "Company Name" then "company_name"
    else if display == "Company Website" then "company_website"
    else if display == "Founder's Name" then "founders_name"
    else if display == "Founders LinkedIn" then "founders_linkedin"
    else if display == "Founders Twitter" then "founders_twitter"
    else display
  }

  /**
   * The rename sends the `i`-th internal key to the `i`-th display name, and
   * undoing it gives the key back: the five keys map one-to-one onto the
   * five display names.
   */
  lemma RenameAligned(i: nat)
    requires i < |InternalKeys|
    ensures Rename(InternalKeys[i]) == ColumnOrder[i]
    ensures Unrename(ColumnOrder[i]) == InternalKeys[i]
  {
  }

  /** Undoing the rename of an internal key gives the key back. */
  lemma UnrenameUndoesRename()
    ensures forall k :: k in InternalKeys ==> Unrename(Rename(k)) == k
  {
    forall k | k in InternalKeys
      ensures Unrename(Rename(k)) == k
    {
      var i :| 0 <= i < |InternalKeys| && InternalKeys[i] == k;
      RenameAligned(i);
    }
  }

  /** No two internal keys share a display name. */
  lemma RenameOneToOne(a: string, b: string)
    requires a in InternalKeys && b in InternalKeys
    requires Rename(a) == Rename(b)
    ensures a == b
  {
  }

  /** Every display name is the rename of some internal key. */
  lemma RenameOnto(display: string)
    requires display in ColumnOrder
    ensures Unrename(display) in InternalKeys && Rename(Unrename(display)) == display
  {
  }

  /** The column names of the table built from `rows`, after the rename. */
  function PresentColumns(rows: seq<Row>): set<string> {
    set r, k | r in rows && k in r :: Rename(k)
  }

  /** `[col for col in order if col in present]`. */
  function KeepPresent(order: seq<string>, present: set<string>): (columns: seq<string>)
    ensures forall c :: c in columns <==> c in order && c in present
    ensures IsSubsequence(columns, order)
  {
    if order == [] then []
    else if order[0] in present then [order[0]] + KeepPresent(order[1..], present)
    else
      var rest := KeepPresent(order[1..], present);
      SubsequenceOfTail(rest, order);
      rest
  }

  /** A filter that keeps everything returns the order unchanged. */
  lemma {:induction false} KeepPresentAll(order: seq<string>, present: set<string>)
    requires forall c :: c in order ==> c in present
    ensures KeepPresent(order, present) == order
  {
    if order != [] {
      KeepPresentAll(order[1..], present);
    }
  }

  // ---------------------------------------------------------------------
  // The exported sheet
  // ---------------------------------------------------------------------

  /** The table written out: a header row and one row of cells per item. */
  datatype Sheet = Sheet(header: seq<string>, rows: seq<seq<string>>)

  /** The cell of `row` under a display column; a row without that key leaves the cell empty. */
  function CellOf(row: Row, display: string): (cell: string)
    ensures forall k :: k in InternalKeys && k in row && Rename(k) == display ==> cell == row[k]
    ensures (forall k :: k in row ==> Rename(k) != display) ==> cell == ""
  {
    UnrenameUndoesRename();
    var key := Unrename(display);
    if key in row && Rename(key) == display then row[key] else ""
  }

  /** The sheet `close_spider` exports, or `None` when no item was collected. */
  function Export(rows: seq<Row>): (sheet: Option<Sheet>)
    ensures sheet.None? <==> rows == []
    ensures sheet.Some? ==> IsSubsequence(sheet.value.header, ColumnOrder) && |sheet.value.rows| == |rows|
    ensures sheet.Some? ==> forall i :: 0 <= i < |rows| ==> |sheet.value.rows[i]| == |sheet.value.header|
  {
    if rows == [] then None
    else
      var header := KeepPresent(ColumnOrder, PresentColumns(rows));
      Some(Sheet(header, seq(|rows|, i requires 0 <= i < |rows| =>
        seq(|header|, j requires 0 <= j < |header| => CellOf(rows[i], header[j])))))
  }

  /**
   * When every row has exactly the five keys, the sheet has the five display
   * names in their fixed order, and the cell in column `j` of row `i` is the
   * row's value under the `j`-th internal key.
   */
  lemma ExportOfRows(rows: seq<Row>)
    requires rows != []
    requires forall i :: 0 <= i < |rows| ==> IsRow(rows[i])
    ensures Export(rows).Some? && Export(rows).value.header == ColumnOrder
    ensures forall i, j :: 0 <= i < |rows| && 0 <= j < |InternalKeys| ==>
      InternalKeys[j] in rows[i] && Export(rows).value.rows[i][j] == rows[i][InternalKeys[j]]
  {
    forall c | c in ColumnOrder
      ensures c in PresentColumns(rows)
    {
      RenameOnto(c);
      assert rows[0] in rows && Unrename(c) in rows[0];
    }
    KeepPresentAll(ColumnOrder, PresentColumns(rows));
    forall i, j | 0 <= i < |rows| && 0 <= j < |InternalKeys|
      ensures InternalKeys[j] in rows[i] && Export(rows).value.rows[i][j] == rows[i][InternalKeys[j]]
    {
      RenameAligned(j);
      assert InternalKeys[j] in rows[i];
    }
  }

  // ---------------------------------------------------------------------
  // Column widths
  // ---------------------------------------------------------------------

  /** `len(str(cell.value) if cell.value else '')`: an empty or missing cell counts as length 0, a whitespace-only one by its length. */
  function CellLength(cell: Option<string>): nat {
    if Truthy(cell) then |cell.value| else 0
  }

  /** The longest cell text of a column. */
  function MaxCellLength(cells: seq<Option<string>>): (m: nat)
    ensures forall i :: 0 <= i < |cells| ==> CellLength(cells[i]) <= m
    ensures m == 0 || exists i :: 0 <= i < |cells| && CellLength(cells[i]) == m
  {
    if cells == [] then 0
    else
      var n := |cells| - 1;
      var init := MaxCellLength(cells[..n]);
      assert forall i :: 0 <= i < n ==> cells[..n][i] == cells[i];
      if CellLength(cells[n]) > init then CellLength(cells[n]) else init
  }

  /** `min(max_length + 2, 50)`. */
  function Min(a: nat, b: nat): nat {
    if a < b then a else b
  }

  /** The width a column gets: its longest cell plus two, capped at fifty. */
  function AdjustedWidth(cells: seq<Option<string>>): (width: nat)
    ensures WidthPadding <= width <= MaxColumnWidth
  {
    Min(MaxCellLength(cells) + WidthPadding, MaxColumnWidth)
  }

  /** A column whose cells are all empty or missing gets the bare padding. */
  lemma FalsyColumnWidth(cells: seq<Option<string>>)
    requires forall i :: 0 <= i < |cells| ==> !Truthy(cells[i])
    ensures AdjustedWidth(cells) == WidthPadding
  {
  }

  /** A cell of 48 characters or more pushes the column to the cap. */
  lemma LongCellCapsWidth(cells: seq<Option<string>>, i: nat)
    requires i < |cells| && CellLength(cells[i]) + WidthPadding >= MaxColumnWidth
    ensures AdjustedWidth(cells) == MaxColumnWidth
  {
  }

  /** The cells of the `j`-th worksheet column: the header, then the cell of every row. */
  function ColumnCells(sheet: Sheet, j: nat): (cells: seq<Option<string>>)
    requires j < |sheet.header|
    ensures |cells| == |sheet.rows| + 1 && cells[0] == Some(sheet.header[j])
    ensures forall i :: 1 <= i < |cells| ==> cells[i] == if j < |sheet.rows[i - 1]| then Some(sheet.rows[i - 1][j]) else None
  {
    [Some(sheet.header[j])] + seq(|sheet.rows|, i requires 0 <= i < |sheet.rows| =>
      if j < |sheet.rows[i]| then Some(sheet.rows[i][j]) else None)
  }

  // ---------------------------------------------------------------------
  // The pipeline object
  // ---------------------------------------------------------------------

  class ExcelExportPipeline {
    /** The rows collected so far, in the order the items arrived. */
    var items: seq<Row>

    /** Every collected row has exactly the five internal keys. */
    predicate Valid()
      reads this
    {
      forall i :: 0 <= i < |items| ==> IsRow(items[i])
    }

    constructor()
      ensures items == [] && Valid()
    {
      items := [];
    }

    /** `process_item`: stores the item's row after the earlier ones and passes the item on unchanged. */
    method ProcessItem(item: YcCompanyItem) returns (out: YcCompanyItem)
      requires Valid()
      modifies this
      ensures Valid()
      ensures items == old(items) + [RowOf(item)]
      ensures out == item
    {
      items := items + [RowOf(item)];
      out := item;
    }

    /** The width loop of `_format_excel_file` for one column. */
    method ColumnWidth(cells: seq<Option<string>>) returns (width: nat)
      ensures width == AdjustedWidth(cells)
      ensures WidthPadding <= width <= MaxColumnWidth
    {
      var maxLength := 0;
      var i := 0;
      while i < |cells|
        invariant i <= |cells|
        invariant maxLength == MaxCellLength(cells[..i])
      {
        assert cells[..i + 1][..i] == cells[..i];
        var cellValue := if Truthy(cells[i]) then cells[i].value else "";
        if |cellValue| > maxLength {
          maxLength := |cellValue|;
        }
        i := i + 1;
      }
      assert cells[..i] == cells;
      width := Min(maxLength + WidthPadding, MaxColumnWidth);
    }

    /** `_format_excel_file`'s widths: one per worksheet column, left to right. */
    method ColumnWidths(sheet: Sheet) returns (widths: seq<nat>)
      ensures |widths| == |sheet.header|
      ensures forall j :: 0 <= j < |widths| ==> widths[j] == AdjustedWidth(ColumnCells(sheet, j))
      ensures forall j :: 0 <= j < |widths| ==> WidthPadding <= widths[j] <= MaxColumnWidth
    {
      widths := [];
      var j := 0;
      while j < |sheet.header|
        invariant j <= |sheet.header|
        invariant |widths| == j
        invariant forall k :: 0 <= k < j ==> widths[k] == AdjustedWidth(ColumnCells(sheet, k))
      {
        var cells := ColumnCells(sheet, j);
        var width := ColumnWidth(cells);
        widths := widths + [width];
        j := j + 1;
      }
    }

    /**
     * `close_spider`: nothing is exported when no item was collected;
     * otherwise the sheet has the five display columns in their fixed order,
     * one row per item with each cell taken from the matching key, and every
     * column gets its capped width.
     */
    method CloseSpider() returns (sheet: Option<Sheet>, widths: seq<nat>)
      requires Valid()
      ensures sheet.None? <==> items == []
      ensures sheet.None? ==> widths == []
      ensures sheet.Some? ==>
        && sheet.value.header == ColumnOrder
        && |sheet.value.rows| == |items|
        && (forall i :: 0 <= i < |items| ==> |sheet.value.rows[i]| == |ColumnOrder|)
        && (forall i, j :: 0 <= i < |items| && 0 <= j < |ColumnOrder| ==>
              sheet.value.rows[i][j] == items[i][InternalKeys[j]])
        && |widths| == |ColumnOrder|
        && (forall j :: 0 <= j < |ColumnOrder| ==> widths[j] == AdjustedWidth(ColumnCells(sheet.value, j)))
    {
      if items == [] {
        return None, [];
      }
      ExportOfRows(items);
      sheet := Export(items);
      widths := ColumnWidths(sheet.value);
    }
  }
}
