/** `generateTableColumns` and `formatTableData`: the columns and rows of the
    table shown under an expanded bar chart. */
module ChartTable {
  import opened ChartValues
  import opened Sequences

  /** `{ id, name, isSortable, type?, filter? }`; `filter` holds the
      placeholder text of `{ placeholderText }`. */
  datatype TableColumn = TableColumn(id: string, name: string, isSortable: bool,
                                     columnType: Option<string>, filter: Option<string>)

  /** Whether a leading column for the time field or the category field comes
      before the dataset columns. */
  predicate HasLeadColumn(time: FieldId, category: FieldId, chartType: ChartType) {
    Given(time) || (Given(category) && chartType != Simple)
  }

  /** The column of one dataset name. */
  function DatasetColumn(name: string, placeholder: Option<string>, capitalize: string -> string): TableColumn {
    TableColumn(name, capitalize(name), true, None, if Given(placeholder) then placeholder else None)
  }

  /** The table columns: a timestamp column for the time field, or else a
      column for the category of a grouped or stacked chart, then one column
      per dataset name in order. */
  function GenerateTableColumns(time: FieldId, category: FieldId, chartType: ChartType, names: seq<string>,
                                placeholder: Option<string>, capitalize: string -> string): (cols: seq<TableColumn>)
    ensures |cols| == |names| + if HasLeadColumn(time, category, chartType) then 1 else 0
    ensures Given(time) ==> cols[0] == TableColumn(time.value, capitalize(time.value), true, Some("TIMESTAMP"), None)
    ensures !Given(time) && HasLeadColumn(time, category, chartType) ==>
      cols[0] == TableColumn(category.value, capitalize(category.value), true, None, None)
    ensures forall c :: c in cols ==> c.isSortable
    ensures forall i :: 0 <= i < |names| ==>
      && cols[|cols| - |names| + i].id == names[i]
      && cols[|cols| - |names| + i].name == capitalize(names[i])
      && cols[|cols| - |names| + i].columnType.None?
      && (cols[|cols| - |names| + i].filter.Some? <==> Given(placeholder))
      && (Given(placeholder) ==> cols[|cols| - |names| + i].filter == placeholder)
  {
    var lead :=
      if Given(time) then [TableColumn(time.value, capitalize(time.value), true, Some("TIMESTAMP"), None)]
      else if Given(category) && chartType != Simple then [TableColumn(category.value, capitalize(category.value), true, None, None)]
      else [];
    lead + seq(|names|, i requires 0 <= i < |names| => DatasetColumn(names[i], placeholder, capitalize))
  }

  /** `{ id, values, isSelectable }`. Cell keys are the raw values they were
      built from. */
  datatype TableRow = TableRow(id: string, values: map<Value, Value>, isSelectable: bool)

  /** `dataindex-<index>`. */
  function RowId(index: nat): string {
    "dataindex-" + NatToString(index)
  }

  lemma RowIdInjective(i: nat, j: nat)
    requires RowId(i) == RowId(j)
    ensures i == j
  {
    var p := "dataindex-";
    assert RowId(i)[|p|..] == NatToString(i);
    assert RowId(j)[|p|..] == NatToString(j);
    NatToStringInjective(i, j);
  }

  /** `data.date?.valueOf() === timestamp`, a date being represented by the
      timestamp it was built from: an absent date reads as undefined, and only
      a numeric timestamp gives back a number. */
  predicate DateMatches(date: Option<Value>, timestamp: Value) {
    match date
    case None => timestamp == Nil
    case Some(d) => d.Num? && d == timestamp
  }

  /** `data.key === key`: an absent key reads as undefined. */
  predicate KeyMatches(key: Option<Value>, k: Value) {
    match key
    case None => k == Nil
    case Some(v) => v == k
  }

  /** Whether a chart record belongs to the row of `k`, by date or by key. */
  predicate Matches(c: ChartRecord, byTime: bool, k: Value) {
    if byTime then DateMatches(c.date, k) else KeyMatches(c.key, k)
  }

  /** `chartData.filter(...)` for the row of `k`. */
  function Matching(chartData: seq<ChartRecord>, byTime: bool, k: Value): (m: seq<ChartRecord>)
    ensures forall c :: c in m <==> c in chartData && Matches(c, byTime, k)
    decreases |chartData|
  {
    if |chartData| == 0 then []
    else
      var last := chartData[|chartData| - 1];
      assert chartData == chartData[..|chartData| - 1] + [last];
      Matching(chartData[..|chartData| - 1], byTime, k) + if Matches(last, byTime, k) then [last] else []
  }

  /** `cs.forEach(val => cells[val.group] = val.value)`: group to value. */
  function CellsOf(cs: seq<ChartRecord>): map<Value, Value>
    decreases |cs|
  {
    if |cs| == 0 then map[]
    else CellsOf(cs[..|cs| - 1])[cs[|cs| - 1].group := cs[|cs| - 1].value]
  }

  /** The cells of the row of `k`: the matching chart records' values by
      group, then the row's own column, the formatted timestamp or the key. */
  function RowCells(chartData: seq<ChartRecord>, byTime: bool, k: Value, column: string,
                    formatDate: Value -> string): map<Value, Value>
  {
    CellsOf(Matching(chartData, byTime, k))[Str(column) := if byTime then Str(formatDate(k)) else k]
  }

  /** `row.values[key]`: a missing cell reads as undefined. */
  function Cell(r: TableRow, key: Value): Value {
    if key in r.values then r.values[key] else Nil
  }

  function Row(chartData: seq<ChartRecord>, byTime: bool, column: string, formatDate: Value -> string,
               k: Value, index: nat): TableRow
  {
    TableRow(RowId(index), RowCells(chartData, byTime, k, column, formatDate), false)
  }

  /** One row per key, in order. */
  function Rows(keys: seq<Value>, chartData: seq<ChartRecord>, byTime: bool, column: string,
                formatDate: Value -> string): (rows: seq<TableRow>)
    ensures |rows| == |keys|
    ensures forall i :: 0 <= i < |keys| ==> rows[i] == Row(chartData, byTime, column, formatDate, keys[i], i)
    decreases |keys|
  {
    if |keys| == 0 then []
    else Rows(keys[..|keys| - 1], chartData, byTime, column, formatDate)
         + [Row(chartData, byTime, column, formatDate, keys[|keys| - 1], |keys| - 1)]
  }

  /** The table rows: one per distinct timestamp with a time field, a single
      row for a simple chart without one, otherwise one per distinct category
      value. */
  function TableData(time: FieldId, category: FieldId, chartType: ChartType, values: seq<Record>,
                     chartData: seq<ChartRecord>, formatDate: Value -> string): seq<TableRow>
  {
    if Given(time) then Rows(Unique(Column(values, time.value)), chartData, true, time.value, formatDate)
    else if chartType == Simple then [TableRow("dataindex-1", CellsOf(chartData), false)]
    else Rows(Unique(Column(values, FieldKey(category))), chartData, false, FieldKey(category), formatDate)
  }

  /** The cells of the chart records that belong to the row of `k`. */
  method GroupCells(chartData: seq<ChartRecord>, byTime: bool, k: Value) returns (cells: map<Value, Value>)
    ensures cells == CellsOf(Matching(chartData, byTime, k))
  {
    var filteredData := Matching(chartData, byTime, k);
    cells := map[];
    for i := 0 to |filteredData|
      invariant cells == CellsOf(filteredData[..i])
    {
      assert filteredData[..i + 1][..i] == filteredData[..i];
      cells := cells[filteredData[i].group := filteredData[i].value];
    }
    assert filteredData[..|filteredData|] == filteredData;
  }

  /** `formatTableData`, with the locale date formatting passed in. */
  method FormatTableData(time: FieldId, category: FieldId, chartType: ChartType, values: seq<Record>,
                         chartData: seq<ChartRecord>, formatDate: Value -> string) returns (tableData: seq<TableRow>)
    ensures tableData == TableData(time, category, chartType, values, chartData, formatDate)
  {
    if Given(time) {
      tableData := TimeRows(time.value, values, chartData, formatDate);
    } else if chartType == Simple {
      var simpleBarValue := map[];
      for i := 0 to |chartData|
        invariant simpleBarValue == CellsOf(chartData[..i])
      {
        assert chartData[..i + 1][..i] == chartData[..i];
        simpleBarValue := simpleBarValue[chartData[i].group := chartData[i].value];
      }
      assert chartData[..|chartData|] == chartData;
      tableData := [TableRow("dataindex-1", simpleBarValue, false)];
    } else {
      tableData := KeyRows(FieldKey(category), values, chartData, formatDate);
    }
  }

  /** The rows of a time-based chart, one per distinct timestamp. */
  method TimeRows(time: string, values: seq<Record>, chartData: seq<ChartRecord>, formatDate: Value -> string)
    returns (tableData: seq<TableRow>)
    ensures tableData == Rows(Unique(Column(values, time)), chartData, true, time, formatDate)
  {
    tableData := [];
    var uniqueTimestamps := Unique(Column(values, time));
    for index := 0 to |uniqueTimestamps|
      invariant tableData == Rows(uniqueTimestamps[..index], chartData, true, time, formatDate)
    {
      var timestamp := uniqueTimestamps[index];
      var barTimeValue := GroupCells(chartData, true, timestamp);
      assert uniqueTimestamps[..index + 1][..index] == uniqueTimestamps[..index];
      tableData := tableData + [TableRow(RowId(index), barTimeValue[Str(time) := Str(formatDate(timestamp))], false)];
    }
    assert uniqueTimestamps[..|uniqueTimestamps|] == uniqueTimestamps;
  }

  /** The rows of a grouped or stacked chart without a time field, one per
      distinct category value. */
  method KeyRows(category: string, values: seq<Record>, chartData: seq<ChartRecord>, formatDate: Value -> string)
    returns (tableData: seq<TableRow>)
    ensures tableData == Rows(Unique(Column(values, category)), chartData, false, category, formatDate)
  {
    tableData := [];
    var uniqueKeys := Unique(Column(values, category));
    for index := 0 to |uniqueKeys|
      invariant tableData == Rows(uniqueKeys[..index], chartData, false, category, formatDate)
    {
      var key := uniqueKeys[index];
      var groupBarValue := GroupCells(chartData, false, key);
      assert uniqueKeys[..index + 1][..index] == uniqueKeys[..index];
      tableData := tableData + [TableRow(RowId(index), groupBarValue[Str(category) := key], false)];
    }
    assert uniqueKeys[..|uniqueKeys|] == uniqueKeys;
  }

  // ---------------------------------------------------------------------------
  // Properties

  /** A group has a cell exactly when some record has that group, and the cell
      holds the value of the last such record. */
  lemma {:induction false} CellsLastWins(cs: seq<ChartRecord>, g: Value)
    ensures g in CellsOf(cs) <==> exists c :: c in cs && c.group == g
    ensures g in CellsOf(cs) ==> exists i :: 0 <= i < |cs| && cs[i].group == g && CellsOf(cs)[g] == cs[i].value
                                              && forall j :: i < j < |cs| ==> cs[j].group != g
    decreases |cs|
  {
    if |cs| > 0 {
      var n := |cs|;
      var init := cs[..n - 1];
      assert cs == init + [cs[n - 1]];
      CellsLastWins(init, g);
      if cs[n - 1].group != g && g in CellsOf(cs) {
        var i :| 0 <= i < |init| && init[i].group == g && CellsOf(init)[g] == init[i].value
                 && forall j :: i < j < |init| ==> init[j].group != g;
        assert cs[i] == init[i];
        assert forall j :: i < j < n ==> cs[j].group != g by {
          forall j | i < j < n ensures cs[j].group != g {
            if j < n - 1 { assert cs[j] == init[j]; }
          }
        }
      }
    }
  }

  /** The cells of a row come from the chart records that belong to it, the
      last one per group winning, and every such record's group has a cell;
      the row's own column holds the formatted timestamp or the key. */
  lemma RowCellsFromChart(chartData: seq<ChartRecord>, byTime: bool, k: Value, column: string,
                          formatDate: Value -> string)
    ensures var cells := RowCells(chartData, byTime, k, column, formatDate);
            && cells[Str(column)] == (if byTime then Str(formatDate(k)) else k)
            && (forall g :: g in cells && g != Str(column) ==>
                  exists c :: c in chartData && Matches(c, byTime, k) && c.group == g && c.value == cells[g])
            && (forall c :: c in chartData && Matches(c, byTime, k) ==> c.group in cells)
  {
    var m := Matching(chartData, byTime, k);
    var cells := RowCells(chartData, byTime, k, column, formatDate);
    forall g | g in cells && g != Str(column)
      ensures exists c :: c in chartData && Matches(c, byTime, k) && c.group == g && c.value == cells[g]
    {
      CellsLastWins(m, g);
      var i :| 0 <= i < |m| && m[i].group == g && CellsOf(m)[g] == m[i].value
               && forall j :: i < j < |m| ==> m[j].group != g;
      assert m[i] in m;
    }
    forall c | c in chartData && Matches(c, byTime, k)
      ensures c.group in cells
    {
      CellsLastWins(m, c.group);
    }
  }

  /** No row is selectable and no two rows share an id: a simple chart
      without a time field has exactly one row, `dataindex-1`; otherwise
      the rows are `dataindex-<i>` by position. */
  lemma TableRowIds(time: FieldId, category: FieldId, chartType: ChartType, values: seq<Record>,
                    chartData: seq<ChartRecord>, formatDate: Value -> string)
    ensures forall r :: r in TableData(time, category, chartType, values, chartData, formatDate) ==> !r.isSelectable
    ensures !Given(time) && chartType == Simple ==>
      TableData(time, category, chartType, values, chartData, formatDate) == [TableRow("dataindex-1", CellsOf(chartData), false)]
    ensures Given(time) || chartType != Simple ==>
      forall i :: 0 <= i < |TableData(time, category, chartType, values, chartData, formatDate)| ==>
        TableData(time, category, chartType, values, chartData, formatDate)[i].id == RowId(i)
    ensures forall i, j :: 0 <= i < j < |TableData(time, category, chartType, values, chartData, formatDate)| ==>
      TableData(time, category, chartType, values, chartData, formatDate)[i].id
        != TableData(time, category, chartType, values, chartData, formatDate)[j].id
  {
    var rows := TableData(time, category, chartType, values, chartData, formatDate);
    forall i, j | 0 <= i < j < |rows| ensures rows[i].id != rows[j].id {
      if rows[i].id == rows[j].id {
        RowIdInjective(i, j);
      }
    }
  }

  /** With a time field there is one row per distinct timestamp, in order of
      first occurrence, each holding its formatted timestamp in the time
      column. */
  lemma TimeTableRows(time: string, category: FieldId, chartType: ChartType, values: seq<Record>,
                      chartData: seq<ChartRecord>, formatDate: Value -> string)
    requires time != ""
    ensures |TableData(Some(time), category, chartType, values, chartData, formatDate)| == |set v | v in Column(values, time)|
    ensures forall i :: 0 <= i < |TableData(Some(time), category, chartType, values, chartData, formatDate)| ==>
      Cell(TableData(Some(time), category, chartType, values, chartData, formatDate)[i], Str(time))
        == Str(formatDate(Unique(Column(values, time))[i]))
  {
    UniqueCount(Column(values, time));
  }

  /** A category row holds its key in the category column. */
  lemma KeyRowCell(keys: seq<Value>, chartData: seq<ChartRecord>, column: string,
                   formatDate: Value -> string, i: nat)
    requires i < |keys|
    ensures Cell(Rows(keys, chartData, false, column, formatDate)[i], Str(column)) == keys[i]
  {
  }

  /** A grouped or stacked chart without a time field (absent or empty) has one row per
      distinct category value, each holding that value in the category column. */
  lemma CategoryTableRows(time: FieldId, category: FieldId, chartType: ChartType, values: seq<Record>,
                          chartData: seq<ChartRecord>, formatDate: Value -> string, rows: seq<TableRow>)
    requires !Given(time) && chartType != Simple
    requires rows == TableData(time, category, chartType, values, chartData, formatDate)
    ensures |rows| == |set v | v in Column(values, FieldKey(category))|
    ensures forall v :: v in Column(values, FieldKey(category)) <==>
      exists i :: 0 <= i < |rows| && Cell(rows[i], Str(FieldKey(category))) == v
  {
    var column := FieldKey(category);
    var col := Column(values, column);
    var keys := Unique(col);
    assert rows == Rows(keys, chartData, false, column, formatDate);
    UniqueCount(col);
    forall v ensures v in col <==> exists i :: 0 <= i < |rows| && Cell(rows[i], Str(column)) == v {
      if v in col {
        var i :| 0 <= i < |keys| && keys[i] == v;
        KeyRowCell(keys, chartData, column, formatDate, i);
      }
      if i :| 0 <= i < |rows| && Cell(rows[i], Str(column)) == v {
        KeyRowCell(keys, chartData, column, formatDate, i);
        assert keys[i] in keys;
      }
    }
  }

  /** ... and the rows come in order of first occurrence of their category value. */
  lemma CategoryTableRowsOrdered(time: FieldId, category: FieldId, chartType: ChartType, values: seq<Record>,
                                 chartData: seq<ChartRecord>, formatDate: Value -> string, rows: seq<TableRow>,
                                 i: nat, j: nat)
    requires !Given(time) && chartType != Simple
    requires rows == TableData(time, category, chartType, values, chartData, formatDate)
    requires i < j < |rows|
    ensures Cell(rows[i], Str(FieldKey(category))) in Column(values, FieldKey(category))
    ensures Cell(rows[j], Str(FieldKey(category))) in Column(values, FieldKey(category))
    ensures FirstIndex(Column(values, FieldKey(category)), Cell(rows[i], Str(FieldKey(category))))
          < FirstIndex(Column(values, FieldKey(category)), Cell(rows[j], Str(FieldKey(category))))
  {
    UniqueOrderAt(Column(values, FieldKey(category)), i, j);
  }
}
