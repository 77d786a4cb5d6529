/**
 * The report layout shared by `output.csv` and `output.xlsx` (the module-level
 * `headers` list), the projection of a device row onto it, and `csv_to_xlsx`,
 * which lays the rows out on a worksheet and sizes every column.
 */
module Report {
  import opened Inventory

  /**
   * A column of the report. Rows are dictionaries keyed by column names, and
   * the header row lists column names (`Label`). The software field is keyed
   * "SW" while its header reads "Software": two different names, so two
   * different columns here.
   */
  datatype ColumnName =
    | Name | Status | Site | Rack | Role | Manufacturer | Type | Owner | Birthday | AgeMonths
    | ServiceContract | Warranty | SerialNumber | Platform | Software | SW | SWVersion | PrimaryIp

  /** The column's name as the script spells it. */
  function Label(c: ColumnName): string {
    match c
    case Name => "Name"
    case Status => "Status"
    case Site => "Site"
    case Rack => "Rack"
    case Role => "Role"
    case Manufacturer => "Manufacturer"
    case Type => "Type"
    case Owner => "Owner"
    case Birthday => "Birthday"
    case AgeMonths => "Age (Months)"
    case ServiceContract => "Service Contract"
    case Warranty => "Warranty"
    case SerialNumber => "Serial Number"
    case Platform => "Platform"
    case Software => "Software"
    case SW => "SW"
    case SWVersion => "SW_Version"
    case PrimaryIp => "Primary IP"
  }

  /**
   * No two columns share a name, so looking a row up by column is looking it
   * up by the column's name, as the script does.
   */
  lemma LabelsDistinct(a: ColumnName, b: ColumnName)
    ensures Label(a) == Label(b) <==> a == b
  {
  }

  /** The `headers` list, in output order. */
  const HEADERS: seq<ColumnName> := [
    Name, Status, Site, Rack, Role, Manufacturer, Type, Owner, Birthday, AgeMonths,
    ServiceContract, Warranty, SerialNumber, Platform, Software, SWVersion, PrimaryIp]

  /** A device row: the dictionary built for one device, keyed by column. */
  type Row = map<ColumnName, Value>

  /** `[device.get(header, '') for header in headers]`: a header missing from the row reads as ''. */
  function Project(row: Row): seq<Value> {
    seq(|HEADERS|, i requires 0 <= i < |HEADERS| =>
      if HEADERS[i] in row then row[HEADERS[i]] else Str(""))
  }

  function ProjectAll(rows: seq<Row>): seq<seq<Value>> {
    seq(|rows|, i requires 0 <= i < |rows| => Project(rows[i]))
  }

  /** `ws.append(headers)`: the header row holds the header strings. */
  function HeaderCells(): seq<Value> {
    seq(|HEADERS|, i requires 0 <= i < |HEADERS| => Str(Label(HEADERS[i])))
  }

  /** Every row has one cell per header. */
  predicate Rectangular(rows: seq<seq<Value>>) {
    forall r :: 0 <= r < |rows| ==> |rows[r]| == |HEADERS|
  }

  /** The worksheet's rows: the header row, then one row per device, in order. */
  function SheetRows(data: seq<Row>): (rows: seq<seq<Value>>)
    ensures Rectangular(rows)
  {
    [HeaderCells()] + ProjectAll(data)
  }

  /** Column `c` of the worksheet, top to bottom (`ws.columns`). */
  function Column(rows: seq<seq<Value>>, c: nat): seq<Value>
    requires Rectangular(rows) && c < |HEADERS|
  {
    seq(|rows|, r requires 0 <= r < |rows| => rows[r][c])
  }

  /** The longest string cell, 0 when there is none; other cells have no `len()`. */
  function MaxStringLength(cells: seq<Value>): nat
    decreases |cells|
  {
    if cells == [] then 0
    else
      var longest := MaxStringLength(cells[..|cells| - 1]);
      var last := cells[|cells| - 1];
      if last.Str? && |last.s| > longest then |last.s| else longest
  }

  /** The string cells of `cells`, in order. */
  function StringCells(cells: seq<Value>): (strings: seq<Value>)
    ensures forall i :: 0 <= i < |strings| ==> strings[i].Str?
    decreases |cells|
  {
    if cells == [] then []
    else
      var rest := StringCells(cells[..|cells| - 1]);
      if cells[|cells| - 1].Str? then rest + [cells[|cells| - 1]] else rest
  }

  /** `ws.column_dimensions[...].width`: 2 more than the longest string in each column. */
  function ColumnWidths(rows: seq<seq<Value>>): seq<int>
    requires Rectangular(rows)
  {
    seq(|HEADERS|, c requires 0 <= c < |HEADERS| => 2 + MaxStringLength(Column(rows, c)))
  }

  /** The saved worksheet: its rows and its column widths. */
  datatype Sheet = Sheet(rows: seq<seq<Value>>, widths: seq<int>)

  /** The worksheet that `csv_to_xlsx` saves for the given device rows. */
  function Workbook(data: seq<Row>): Sheet {
    var rows := SheetRows(data);
    Sheet(rows, ColumnWidths(rows))
  }

  /**
   * The running maximum of `csv_to_xlsx`'s inner loop over one column:
   * `len(str(v)) > max_length` guards `max_length = len(v)`, and for a cell
   * that is not a string `len(v)` raises TypeError, which the bare `except`
   * swallows.
   */
  method LongestString(column: seq<Value>) returns (maxLength: nat)
    ensures maxLength == MaxStringLength(column)
  {
    maxLength := 0;
    for r := 0 to |column|
      invariant maxLength == MaxStringLength(column[..r])
    {
      var cell := column[r];
      assert column[..r + 1][..r] == column[..r];
      if |PyStr(cell)| > maxLength {
        if cell.Str? {
          maxLength := |cell.s|;
        }
      }
    }
    assert column[..|column|] == column;
  }

  /** The `ws.append` calls of `csv_to_xlsx`: the header row, then one projected row per device. */
  method AppendRows(data: seq<Row>) returns (rows: seq<seq<Value>>)
    ensures rows == SheetRows(data)
  {
    rows := [HeaderCells()];
    for i := 0 to |data|
      invariant rows == SheetRows(data[..i])
    {
      assert ProjectAll(data[..i + 1]) == ProjectAll(data[..i]) + [Project(data[i])];
      rows := rows + [Project(data[i])];
    }
    assert data[..|data|] == data;
  }

  /** The loop of `csv_to_xlsx` over `ws.columns`, setting each column's width. */
  method SizeColumns(rows: seq<seq<Value>>) returns (widths: seq<int>)
    requires Rectangular(rows)
    ensures widths == ColumnWidths(rows)
  {
    widths := [];
    for c := 0 to |HEADERS|
      invariant |widths| == c
      invariant forall k :: 0 <= k < c ==> widths[k] == 2 + MaxStringLength(Column(rows, k))
    {
      var maxLength := LongestString(Column(rows, c));
      widths := widths + [maxLength + 2];
    }
  }

  /** `csv_to_xlsx`: the worksheet it saves to `output.xlsx`. */
  method CsvToXlsx(data: seq<Row>) returns (sheet: Sheet)
    ensures sheet == Workbook(data)
  {
    var rows := AppendRows(data);
    var widths := SizeColumns(rows);
    sheet := Sheet(rows, widths);
  }

  /** The maximum bounds every string cell and, unless it is 0, is the length of one of them. */
  lemma {:induction false} MaxStringLengthIsLongest(cells: seq<Value>)
    ensures forall i :: 0 <= i < |cells| && cells[i].Str? ==> |cells[i].s| <= MaxStringLength(cells)
    ensures MaxStringLength(cells) == 0
         || exists i :: 0 <= i < |cells| && cells[i].Str? && |cells[i].s| == MaxStringLength(cells)
    decreases |cells|
  {
    if cells != [] {
      var init := cells[..|cells| - 1];
      MaxStringLengthIsLongest(init);
      assert forall i :: 0 <= i < |init| ==> cells[i] == init[i];
    }
  }

  /** Integer and None cells never raise the maximum: only the string cells decide it. */
  lemma {:induction false} NonStringCellsIgnored(cells: seq<Value>)
    ensures MaxStringLength(cells) == MaxStringLength(StringCells(cells))
    decreases |cells|
  {
    if cells != [] {
      var init := cells[..|cells| - 1];
      NonStringCellsIgnored(init);
      var rest := StringCells(init);
      if cells[|cells| - 1].Str? {
        assert (rest + [cells[|cells| - 1]])[..|rest|] == rest;
      }
    }
  }

  /** Each column is 2 wider than its longest string cell. */
  lemma ColumnWidthIsLongestString(rows: seq<seq<Value>>, c: nat)
    requires Rectangular(rows) && c < |HEADERS|
    ensures forall r :: 0 <= r < |rows| && rows[r][c].Str? ==> |rows[r][c].s| + 2 <= ColumnWidths(rows)[c]
    ensures ColumnWidths(rows)[c] == 2
         || exists r :: 0 <= r < |rows| && rows[r][c].Str? && |rows[r][c].s| + 2 == ColumnWidths(rows)[c]
  {
    var column := Column(rows, c);
    MaxStringLengthIsLongest(column);
    assert forall r :: 0 <= r < |rows| ==> column[r] == rows[r][c];
  }

  /** The saved sheet has the header row and then one projected row per device, in order. */
  lemma WorkbookRows(data: seq<Row>)
    ensures var sheet := Workbook(data);
      && |sheet.rows| == |data| + 1
      && sheet.rows[0] == HeaderCells()
      && (forall i :: 0 <= i < |data| ==> sheet.rows[i + 1] == Project(data[i]))
      && |sheet.widths| == |HEADERS|
  {
  }

  /**
   * Each column of the saved sheet is 2 wider than its longest string cell,
   * which the header makes at least as long as the header itself.
   */
  lemma WorkbookWidths(data: seq<Row>, c: nat)
    requires c < |HEADERS|
    ensures var sheet := Workbook(data);
      && |Label(HEADERS[c])| + 2 <= sheet.widths[c]
      && (forall r :: 0 <= r < |sheet.rows| && sheet.rows[r][c].Str? ==>
            |sheet.rows[r][c].s| + 2 <= sheet.widths[c])
      && exists r :: 0 <= r < |sheet.rows| && sheet.rows[r][c].Str? &&
            |sheet.rows[r][c].s| + 2 == sheet.widths[c]
  {
    var rows := SheetRows(data);
    ColumnWidthIsLongestString(rows, c);
    assert rows[0][c] == Str(Label(HEADERS[c]));
  }
}
