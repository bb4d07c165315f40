# Bar chart data shaping, modelled in Dafny

This project models the data-shaping utilities of the bar chart card
(`src/components/BarChartCard/barChartUtils.js`). They turn raw records and
a series declaration into the inputs of the chart and of its expanded table:

- `formatChartData` turns raw records into chart records
  `{group, value, key?, date?}`. It buckets the records by the unique values
  of a grouping field in first-seen order, and skips nil values.
- `mapValuesToAxes` decides which chart-record property the bottom and left
  axes read.
- `formatColors` builds the colour configuration `{identifier: 'group', scale}`.
  The colours come from the series' colour config, from the disabled palette
  in editable (preview) mode, or from the default Carbon colour families.
- `generateTableColumns` and `formatTableData` build the columns and rows
  of the table shown under an expanded chart.

Modules, one file each:

- `ChartValues` (`chart_values.dfy`): record values, series, chart types and
  layouts, chart records, and the JavaScript helpers the code relies on.
  These are truthiness, property reads, `map`/`filter`, and decimal rendering.
- `Sequences` (`sequences.dfy`): `[...new Set(s)]` and its first-seen order.
- `ChartRecords` (`chart_records.dfy`): `formatChartData`. The methods have
  the source's nested loops and are proved equal to the specification
  function `ChartData`. The properties are lemmas about `ChartData`.
- `ChartAxes` (`chart_axes.dfy`): `mapValuesToAxes`, and how it fits the
  chart records.
- `ChartColors` (`chart_colors.dfy`): `formatColors`. The method
  threads the scale and the intensity counter as the source does and is
  proved equal to `ColorConfig`.
- `ChartTable` (`chart_table.dfy`): `generateTableColumns` (a function) and
  `formatTableData` (methods with the source's loops, proved equal to
  `TableData`).

Modelling choices:

- A field value is `Num(int)`, `Str(string)` or `Nil`. `Nil` is both
  `null` and `undefined`, as `isNil` treats them.
- An optional argument or property is an `Option<string>`. Its truthiness is
  `Given`. Used as a property name, an absent one becomes `"undefined"`.
- A `Date` built with `new Date(ts)` is represented by the timestamp `ts`
  itself.
- `capitalize`, the locale date formatting and the colour palettes are
  parameters.

Behaviour the model follows exactly, as the code has it:

- An array colour config with more colours than dataset names writes its
  extra colours under the key `"undefined"` (`ArrayScaleLast`).
- When the first series' colour is not an array, a series after the first
  whose colour is an object or an array replaces the whole scale built so
  far (`ObjectColorReplacesScale`). An array is then read as an object
  keyed by index. When the first series' colour is an array, only that
  array is read and the other series' colours are ignored.
- Grouping and axes do not agree in two cases:
  - A grouped chart with a time field puts dates on an axis, but its chart
    records carry no date (`GroupedTimeAxisReadsNoDate`).
  - A simple chart with both a time and a category field is bucketed by
    category and has no dates, but its axis also reads `date`.

  In every other case both axes read a property every chart record has
  (`AxesReadCarriedFields`).

## Model

| member | source | states |
|---|---|---|
| ChartRecords.FormatChartData | src/components/BarChartCard/barChartUtils.js:99-181 | The result is exactly `ChartData`: empty for nil values; otherwise, for each distinct grouping value in first-seen order, for each record of its bucket in input order, for each consulted series in order, the chart record of each non-nil value |
| ChartRecords.FormatGroupedOrStacked | src/components/BarChartCard/barChartUtils.js:103-139 | The grouped/stacked branch (grouping by time only for stacked charts with a time field) yields `ChartData` |
| ChartRecords.GroupRecords | src/components/BarChartCard/barChartUtils.js:119-138 | The nested record/series loops over one bucket yield that bucket's chart records in record-then-series order |
| ChartRecords.FormatSimpleByCategory | src/components/BarChartCard/barChartUtils.js:141-158 | The simple branch with a category field yields `ChartData` |
| ChartRecords.SimpleCategoryRecords | src/components/BarChartCard/barChartUtils.js:147-157 | One category bucket yields `{group: category value, value}` for each record whose first-series value is not nil |
| ChartRecords.FormatSimpleByTime | src/components/BarChartCard/barChartUtils.js:159-178 | The simple branch without a category field yields `ChartData` |
| ChartRecords.SimpleTimeRecords | src/components/BarChartCard/barChartUtils.js:164-177 | One time bucket yields `{group: first series' field, value, date}` for each record whose first-series value is not nil |
| ChartRecords.SimpleReadsFirstSeriesOnly | src/components/BarChartCard/barChartUtils.js:141-178 | A simple chart's data depends on the series only through the first series' field name: two series lists whose first entries read the same field give the same chart records, whatever the later series and the first one's label and colour |
| ChartRecords.BucketsArePermutation | src/components/BarChartCard/barChartUtils.js:106-117 | The buckets of the unique grouping values, concatenated, are a permutation of the input records: none lost, none duplicated |
| ChartRecords.ChartDataMembers | src/components/BarChartCard/barChartUtils.js:99-175 | Nil values give no records. A chart record is emitted if and only if it is built from an input record and a consulted series whose value in that record is not nil |
| ChartRecords.ChartRecordShapes | src/components/BarChartCard/barChartUtils.js:124-174 | No emitted value is nil. Grouped records have a key and no date. Stacked time records have date = key = some input record's timestamp. Other grouped and stacked records have some input record's category value as key. Simple records have no key; bucketed by category their group is some input record's category value, bucketed by time their date is some input record's timestamp and their group the first series' field |
| ChartRecords.ChartDataSize | src/components/BarChartCard/barChartUtils.js:119-166 | At most \|values\| × \|series\| records for grouped and stacked charts, at most \|values\| for a simple chart |
| ChartRecords.ChartDataFirstSeenOrder | src/components/BarChartCard/barChartUtils.js:106-121 | Every record's bucket value occurs in the input, and records come in order of the first occurrence of their bucket value |
| ChartAxes.MapValuesToAxes | src/components/BarChartCard/barChartUtils.js:195-231 | Vertical puts the value on the left, any other layout at the bottom. The other axis is `date` iff a time field is given, `key` iff not and a category is given for a non-simple chart, `group` otherwise |
| ChartAxes.HorizontalIsSwappedVertical | src/components/BarChartCard/barChartUtils.js:199-230 | The horizontal mapping is the vertical one with the axes swapped |
| ChartAxes.AxesReadCarriedFields | src/components/BarChartCard/barChartUtils.js:199-230 | Except for grouped charts with a time field and simple charts with both fields, both axes read a property every chart record carries |
| ChartAxes.GroupedTimeAxisReadsNoDate | src/components/BarChartCard/barChartUtils.js:201-204 | A grouped chart with a time field maps an axis to `date`, yet none of its chart records has a date |
| ChartColors.FormatColors | src/components/BarChartCard/barChartUtils.js:243-292 | The three loops (array config, series configs, fill-in with the intensity counter) yield `ColorConfig`, identifier `'group'` |
| ChartColors.EditableColors | src/components/BarChartCard/barChartUtils.js:270-274 | In editable mode every dataset name gets `DISABLED_COLORS[index % length]` (last index for a repeated name), whatever was configured, and other keys keep their configured colour |
| ChartColors.ConfiguredOrDefaultColors | src/components/BarChartCard/barChartUtils.js:270-289 | Outside editable mode a truthy configured colour is kept. Any other name gets default family `index % length` at the fallback intensity, so every name ends up coloured |
| ChartColors.FillIntensity | src/components/BarChartCard/barChartUtils.js:268-287 | The intensity counter starts at 50 and changes only when index 0 falls back, to 60. It always stays 50 or 60, so the 100 to 40 wrap is never reached |
| ChartColors.FillFallback | src/components/BarChartCard/barChartUtils.js:276-287 | A name with no truthy colour gets the family of its first index at 50 for index 0, and at 60 after index 0 fell back (else 50) |
| ChartColors.FillKeepsTruthy | src/components/BarChartCard/barChartUtils.js:276 | Outside editable mode filling never replaces a truthy colour |
| ChartColors.FillOnlyNames | src/components/BarChartCard/barChartUtils.js:270-289 | Filling changes no key other than the dataset names |
| ChartColors.ArrayScaleLast | src/components/BarChartCard/barChartUtils.js:248-251 | An array config puts colour i under `datasetNames[i]` ("undefined" past the end), the last index writing a key winning; no other key is set |
| ChartColors.ArrayColorsByIndex | src/components/BarChartCard/barChartUtils.js:248-251 | With distinct dataset names, colour i of the first series' array lands on `datasetNames[i]` |
| ChartColors.ObjectColorReplacesScale | src/components/BarChartCard/barChartUtils.js:253-263 | When the first series' colour is not an array, an object colour (or a later array) discards every colour set before it; only later series still apply |
| ChartColors.StringColorColorsLabel | src/components/BarChartCard/barChartUtils.js:254-258 | A non-empty string colour lands on the series' label unless a later series overrides it |
| ChartTable.GenerateTableColumns | src/components/BarChartCard/barChartUtils.js:343-381 | One more column than dataset names exactly when a time field, or a category of a non-simple chart, is given. A time column comes first with type TIMESTAMP. Every column is sortable. Dataset columns keep their order and carry a filter iff placeholder text is given |
| ChartTable.FormatTableData | src/components/BarChartCard/barChartUtils.js:395-465 | The result is exactly `TableData`: rows per distinct timestamp, one row for a non-time simple chart, or rows per distinct category value |
| ChartTable.TimeRows | src/components/BarChartCard/barChartUtils.js:403-425 | The time branch's loop yields one row per distinct timestamp in first-seen order |
| ChartTable.KeyRows | src/components/BarChartCard/barChartUtils.js:440-462 | The category branch's loop yields one row per distinct category value in first-seen order |
| ChartTable.GroupCells | src/components/BarChartCard/barChartUtils.js:411-414 | The cells of a row are the filtered chart records' values by group |
| ChartTable.CellsLastWins | src/components/BarChartCard/barChartUtils.js:412-414 | A group has a cell iff some record has that group, and the cell holds the value of the last such record |
| ChartTable.RowCellsFromChart | src/components/BarChartCard/barChartUtils.js:409-425 | Every cell other than the row's own column comes from a chart record of that row's timestamp or key, and every such record's group has a cell; the row's column holds the formatted timestamp or the key |
| ChartTable.TableRowIds | src/components/BarChartCard/barChartUtils.js:402-464 | No row is selectable and ids are distinct. A non-time simple chart has exactly the row `dataindex-1`; otherwise row i has id `dataindex-i` |
| ChartTable.TimeTableRows | src/components/BarChartCard/barChartUtils.js:403-425 | With a time field there are as many rows as distinct timestamps, row i holding the formatted i-th distinct timestamp |
| ChartTable.CategoryTableRows | src/components/BarChartCard/barChartUtils.js:440-462 | Without a time field (absent or empty) a grouped or stacked chart has as many rows as distinct category values, and a value occurs in the input iff some row holds it |
| ChartTable.CategoryTableRowsOrdered | src/components/BarChartCard/barChartUtils.js:442-446 | Those rows come in order of first occurrence of their category value |
| ChartTable.RowIdInjective | src/components/BarChartCard/barChartUtils.js:417 | Distinct indices give distinct `dataindex-` ids |
| Sequences.Unique | src/components/BarChartCard/barChartUtils.js:108 | `[...new Set(s)]` holds exactly the elements of `s`, each once |
| Sequences.UniqueInFirstSeenOrder | src/components/BarChartCard/barChartUtils.js:108 | The unique elements come in order of first occurrence |
| Sequences.UniqueCount | src/components/BarChartCard/barChartUtils.js:405 | There are as many unique elements as distinct values |
| ChartValues.Bucket | src/components/BarChartCard/barChartUtils.js:110 | `filter(val => val[field] === key)` keeps exactly the records whose field holds the key |
| ChartValues.NatToStringInjective | src/components/BarChartCard/barChartUtils.js:417 | Distinct numbers render as distinct decimal strings |

## Left out

- `generateSampleValues` (barChartUtils.js:19-85) is not modelled. It draws
  `Math.random()` values and reads the wall clock.
- `handleTooltip` (barChartUtils.js:306-332) is not modelled. It splices HTML
  strings produced by the external chart library and formats locale dates.
- `capitalize`, `moment(...).format('L HH:mm')` and the Carbon palettes
  `DEFAULT_CHART_COLORS` (7 colour families) and `DISABLED_COLORS` are
  parameters, uninterpreted.
- Floating-point values are not modelled: numbers are integers.
- Properties inherited from `Object.prototype` are not modelled. Records,
  colour scales and table cells are plain maps, so a field id, group name
  or dataset name equal to an inherited property (`constructor`,
  `toString`, `__proto__`, ...) reads as undefined here when it is not set.
  In the source such a read sees the inherited member. For example,
  `formatColors` gives no default colour to a dataset named `constructor`,
  because `!colors.scale['constructor']` is false. A series whose
  `dataSourceId` is `toString` is never nil in `formatChartData`, so the
  source emits records for it.
- `null` and `undefined` are one value, `Nil`. Where the source keeps them
  apart, the model does not:
  - `new Date(null)` is the epoch, which would match a timestamp `0`.
  - `undefined === null` is false in the table's filters.
  - `[...new Set(...)]` and the `===` bucket filters (barChartUtils.js:108-116,
    142-145, 160-163, 405 and 442) treat `null` and `undefined` as two
    grouping values. A grouping column holding both therefore gives two
    buckets and two table rows in the source but one of each in the model,
    and the chart records come in a different order: for
    `[{c: null, v: 1}, {v: 2}, {c: null, v: 3}]` grouped by `c` the source
    emits the records of rows 1, 3, 2 and the model those of rows 1, 2, 3.
- String timestamps are not parsed: a chart record whose date was built
  from a non-number never matches a timestamp. The valid range of `Date`
  values is not modelled.
- JavaScript's conversion of property names to strings is not modelled for
  table cells. The cells are keyed by the raw group value, so `1` and `"1"`
  are different cells here.
- The source aliases the caller's colour object when it becomes the scale
  and then writes into it. The model copies values instead, so changes to
  the caller's object are not captured.
- Array-specific properties of an array used as the colour scale (`length`)
  are not modelled. Such an array is an object keyed by decimal index.
- An empty `series` where the code reads `series[0]` makes the source throw
  a TypeError. The model excludes it by preconditions
  (`ChartRecords.FirstSeriesAvailable`, `ChartColors.FormatColors`).
- Nil `values` in `formatTableData` throws a TypeError only in the time and
  category branches, which call `values.map`. In the simple branch without a
  time field `values` is never read, so nil is harmless there. The type
  `seq<Record>` of `ChartTable.FormatTableData` excludes nil in every
  branch.
- Chart types other than simple, grouped and stacked are not modelled.
  A layout other than vertical is `Horizontal`.
- ChartColors.ArrayColorsByIndex: stated for distinct dataset names none of
  which is "undefined"; ChartColors.ArrayScaleLast states the general
  last-write rule.
- ChartColors.ConfiguredOrDefaultColors: the fallback colours and
  "every name is coloured" are stated for palettes with non-empty colours
  at intensities 50 and 60 (`ShadesPresent`), as the Carbon families have.
  The promise does not hold in the source for a dataset name that is an
  inherited `Object.prototype` property, which the model does not have.
- ChartColors.StringColorColorsLabel: stated only when no later series sets
  an object, an array or the same label.
