/** `formatChartData`: raw records and a series declaration become normalized
    chart records, bucketed by the unique values of a grouping field. */
module ChartRecords {
  import opened ChartValues
  import opened Sequences

  /** Grouped and stacked charts are time-based when a time field is given,
      except grouped charts, which are never time-based. */
  predicate TimeRouted(time: FieldId, chartType: ChartType) {
    chartType != Simple && Given(time) && chartType != Grouped
  }

  /** The field whose unique values become the x-label buckets. */
  function GroupingField(category: FieldId, time: FieldId, chartType: ChartType): string {
    if TimeRouted(time, chartType) then FieldKey(time)
    else if chartType != Simple then FieldKey(category)
    else if Given(category) then FieldKey(category)
    else FieldKey(time)
  }

  /** The series that are consulted: all of them for grouped and stacked
      charts, only the first for a simple chart. */
  function Consulted(series: seq<Series>, chartType: ChartType): (ss: seq<Series>)
    ensures chartType != Simple ==> ss == series
    ensures chartType == Simple ==> |ss| <= 1 && (|series| > 0 ==> ss == [series[0]])
  {
    if chartType != Simple || |series| == 0 then series else [series[0]]
  }

  /** The chart record a raw record contributes for one series. */
  function MakeRecord(s: Series, r: Record, category: FieldId, time: FieldId, chartType: ChartType): ChartRecord {
    var v := Get(r, s.dataSourceId);
    if chartType != Simple then
      var group := if Given(s.seriesLabel) then Str(s.seriesLabel.value) else Get(r, FieldKey(category));
      if TimeRouted(time, chartType) then
        ChartRecord(group, v, Some(Get(r, FieldKey(time))), Some(Get(r, FieldKey(time))))
      else
        ChartRecord(group, v, Some(Get(r, FieldKey(category))), None)
    else if Given(category) then
      ChartRecord(Get(r, FieldKey(category)), v, None, None)
    else
      ChartRecord(Str(s.dataSourceId), v, None, Some(Get(r, FieldKey(time))))
  }

  /** A record and a series produce a chart record exactly when the series'
      field is not nil in that record. */
  predicate Produces(c: ChartRecord, r: Record, s: Series, category: FieldId, time: FieldId, chartType: ChartType) {
    Get(r, s.dataSourceId) != Nil && c == MakeRecord(s, r, category, time, chartType)
  }

  function Emit(s: Series, r: Record, category: FieldId, time: FieldId, chartType: ChartType): seq<ChartRecord> {
    if Get(r, s.dataSourceId) == Nil then [] else [MakeRecord(s, r, category, time, chartType)]
  }

  /** The records one raw record contributes, in series order. */
  function EmitRow(ss: seq<Series>, r: Record, category: FieldId, time: FieldId, chartType: ChartType): seq<ChartRecord> {
    if |ss| == 0 then []
    else EmitRow(ss[..|ss| - 1], r, category, time, chartType) + Emit(ss[|ss| - 1], r, category, time, chartType)
  }

  /** The records a list of raw records contributes, in input order. */
  function EmitRecords(ss: seq<Series>, rs: seq<Record>, category: FieldId, time: FieldId, chartType: ChartType): seq<ChartRecord> {
    if |rs| == 0 then []
    else EmitRecords(ss, rs[..|rs| - 1], category, time, chartType) + EmitRow(ss, rs[|rs| - 1], category, time, chartType)
  }

  /** The records of the buckets of `keys`, bucket after bucket. */
  function EmitKeys(ss: seq<Series>, vs: seq<Record>, field: string, keys: seq<Value>,
                    category: FieldId, time: FieldId, chartType: ChartType): seq<ChartRecord>
  {
    if |keys| == 0 then []
    else
      EmitKeys(ss, vs, field, keys[..|keys| - 1], category, time, chartType)
      + EmitRecords(ss, Bucket(vs, field, keys[|keys| - 1]), category, time, chartType)
  }

  lemma EmitRowStep(ss: seq<Series>, r: Record, d: nat, category: FieldId, time: FieldId, chartType: ChartType)
    requires d < |ss|
    ensures EmitRow(ss[..d + 1], r, category, time, chartType)
         == EmitRow(ss[..d], r, category, time, chartType) + Emit(ss[d], r, category, time, chartType)
  {
    assert ss[..d + 1][..d] == ss[..d];
  }

  lemma EmitRecordsStep(ss: seq<Series>, rs: seq<Record>, i: nat, category: FieldId, time: FieldId, chartType: ChartType)
    requires i < |rs|
    ensures EmitRecords(ss, rs[..i + 1], category, time, chartType)
         == EmitRecords(ss, rs[..i], category, time, chartType) + EmitRow(ss, rs[i], category, time, chartType)
  {
    assert rs[..i + 1][..i] == rs[..i];
  }

  lemma EmitKeysStep(ss: seq<Series>, vs: seq<Record>, field: string, keys: seq<Value>, g: nat,
                     category: FieldId, time: FieldId, chartType: ChartType)
    requires g < |keys|
    ensures EmitKeys(ss, vs, field, keys[..g + 1], category, time, chartType)
         == EmitKeys(ss, vs, field, keys[..g], category, time, chartType)
            + EmitRecords(ss, Bucket(vs, field, keys[g]), category, time, chartType)
  {
    assert keys[..g + 1][..g] == keys[..g];
  }

  /** One series step of the grouped/stacked branch, with the record spelled out. */
  lemma GroupedRowStep(ss: seq<Series>, r: Record, d: nat, category: FieldId, time: FieldId, chartType: ChartType)
    requires d < |ss| && chartType != Simple
    ensures EmitRow(ss[..d + 1], r, category, time, chartType)
         == EmitRow(ss[..d], r, category, time, chartType)
            + if Get(r, ss[d].dataSourceId) == Nil then []
              else
                var group := if Given(ss[d].seriesLabel) then Str(ss[d].seriesLabel.value) else Get(r, FieldKey(category));
                if Given(time) && chartType != Grouped
                then [ChartRecord(group, Get(r, ss[d].dataSourceId), Some(Get(r, FieldKey(time))), Some(Get(r, FieldKey(time))))]
                else [ChartRecord(group, Get(r, ss[d].dataSourceId), Some(Get(r, FieldKey(category))), None)]
  {
    EmitRowStep(ss, r, d, category, time, chartType);
  }

  /** One record step of the simple branch grouped by category. */
  lemma SimpleCategoryStep(series: seq<Series>, rs: seq<Record>, i: nat, category: FieldId, time: FieldId)
    requires Given(category) && i < |rs| && |series| > 0
    ensures EmitRecords(Consulted(series, Simple), rs[..i + 1], category, time, Simple)
         == EmitRecords(Consulted(series, Simple), rs[..i], category, time, Simple)
            + if Get(rs[i], series[0].dataSourceId) == Nil then []
              else [ChartRecord(Get(rs[i], FieldKey(category)), Get(rs[i], series[0].dataSourceId), None, None)]
  {
    EmitRecordsStep(Consulted(series, Simple), rs, i, category, time, Simple);
    assert [series[0]][..0] == [];
  }

  /** One record step of the simple branch grouped by time. */
  lemma SimpleTimeStep(series: seq<Series>, rs: seq<Record>, i: nat, category: FieldId, time: FieldId)
    requires !Given(category) && i < |rs| && |series| > 0
    ensures EmitRecords(Consulted(series, Simple), rs[..i + 1], category, time, Simple)
         == EmitRecords(Consulted(series, Simple), rs[..i], category, time, Simple)
            + if Get(rs[i], series[0].dataSourceId) == Nil then []
              else [ChartRecord(Str(series[0].dataSourceId), Get(rs[i], series[0].dataSourceId), None, Some(Get(rs[i], FieldKey(time))))]
  {
    EmitRecordsStep(Consulted(series, Simple), rs, i, category, time, Simple);
    assert [series[0]][..0] == [];
  }

  /** What `formatChartData` returns: nothing for nil values; otherwise, for each
      unique grouping key in first-seen order, for each record of its bucket in
      input order, for each consulted series in order, the record's chart record
      when its value is not nil. */
  function ChartData(series: seq<Series>, values: Option<seq<Record>>,
                     category: FieldId, time: FieldId, chartType: ChartType): seq<ChartRecord>
  {
    match values
    case None => []
    case Some(vs) =>
      var field := GroupingField(category, time, chartType);
      EmitKeys(Consulted(series, chartType), vs, field, Unique(Column(vs, field)), category, time, chartType)
  }

  /** For a simple chart, a series is read only through its field name. */
  lemma {:induction false} SimpleRecordsSameField(s: Series, t: Series, rs: seq<Record>, category: FieldId, time: FieldId)
    requires s.dataSourceId == t.dataSourceId
    ensures EmitRecords([s], rs, category, time, Simple) == EmitRecords([t], rs, category, time, Simple)
  {
    if |rs| > 0 {
      SimpleRecordsSameField(s, t, rs[..|rs| - 1], category, time);
      var r := rs[|rs| - 1];
      assert [s][..0] == [] == [t][..0];
      assert EmitRow([s], r, category, time, Simple) == Emit(s, r, category, time, Simple);
      assert EmitRow([t], r, category, time, Simple) == Emit(t, r, category, time, Simple);
    }
  }

  lemma {:induction false} SimpleKeysSameField(s: Series, t: Series, vs: seq<Record>, field: string, keys: seq<Value>,
                                               category: FieldId, time: FieldId)
    requires s.dataSourceId == t.dataSourceId
    ensures EmitKeys([s], vs, field, keys, category, time, Simple) == EmitKeys([t], vs, field, keys, category, time, Simple)
  {
    if |keys| > 0 {
      SimpleKeysSameField(s, t, vs, field, keys[..|keys| - 1], category, time);
      SimpleRecordsSameField(s, t, Bucket(vs, field, keys[|keys| - 1]), category, time);
    }
  }

  /** A simple chart reads only the field name of the first series: the
      series after it, and the first series' label and colour, do not change
      its chart data. */
  lemma SimpleReadsFirstSeriesOnly(series: seq<Series>, other: seq<Series>, values: Option<seq<Record>>,
                                   category: FieldId, time: FieldId)
    requires |series| > 0 && |other| > 0 && series[0].dataSourceId == other[0].dataSourceId
    ensures ChartData(series, values, category, time, Simple) == ChartData(other, values, category, time, Simple)
  {
    if values.Some? {
      var field := GroupingField(category, time, Simple);
      SimpleKeysSameField(series[0], other[0], values.value, field, Unique(Column(values.value, field)), category, time);
    }
  }

  /** The source reads `series[0]` of a simple chart once there is a record to
      look at; with no series that is a TypeError. */
  predicate FirstSeriesAvailable(series: seq<Series>, values: Option<seq<Record>>, chartType: ChartType) {
    chartType == Simple && values.Some? && |values.value| > 0 ==> |series| > 0
  }

  method FormatChartData(series: seq<Series>, values: Option<seq<Record>>,
                         category: FieldId, time: FieldId, chartType: ChartType)
    returns (data: seq<ChartRecord>)
    requires FirstSeriesAvailable(series, values, chartType)
    ensures data == ChartData(series, values, category, time, chartType)
  {
    data := [];
    if values.Some? {
      if chartType == Grouped || chartType == Stacked {
        data := FormatGroupedOrStacked(series, values.value, category, time, chartType);
      } else if Given(category) {
        data := FormatSimpleByCategory(series, values.value, category, time);
      } else {
        data := FormatSimpleByTime(series, values.value, category, time);
      }
    }
  }

  /** The grouped/stacked branch of `formatChartData`. */
  method FormatGroupedOrStacked(series: seq<Series>, vs: seq<Record>,
                                category: FieldId, time: FieldId, chartType: ChartType)
    returns (data: seq<ChartRecord>)
    requires chartType != Simple
    ensures data == ChartData(series, Some(vs), category, time, chartType)
  {
    data := [];
    // x-label grouping: by time for stacked charts with a time field, else by category
    var field;
    if Given(time) && chartType != Grouped {
      field := FieldKey(time);
    } else {
      field := FieldKey(category);
    }
    assert GroupingField(category, time, chartType) == field;
    var uniqueDatasetNames := Unique(Column(vs, field));
    var groupedData := Buckets(vs, field, uniqueDatasetNames);
    for g := 0 to |groupedData|
      invariant data == EmitKeys(series, vs, field, uniqueDatasetNames[..g], category, time, chartType)
    {
      var records := GroupRecords(series, groupedData[g], category, time, chartType);
      data := data + records;
      EmitKeysStep(series, vs, field, uniqueDatasetNames, g, category, time, chartType);
    }
    assert uniqueDatasetNames[..|uniqueDatasetNames|] == uniqueDatasetNames;
  }

  /** The records one bucket of a grouped/stacked chart contributes: for each
      record, one chart record per series whose field is not nil. */
  method GroupRecords(series: seq<Series>, group: seq<Record>, category: FieldId, time: FieldId,
                      chartType: ChartType)
    returns (data: seq<ChartRecord>)
    requires chartType != Simple
    ensures data == EmitRecords(series, group, category, time, chartType)
  {
    data := [];
    for i := 0 to |group|
      invariant data == EmitRecords(series, group[..i], category, time, chartType)
    {
      var value := group[i];
      var row := [];
      for d := 0 to |series|
        invariant row == EmitRow(series[..d], value, category, time, chartType)
      {
        var dataset := series[d];
        GroupedRowStep(series, value, d, category, time, chartType);
        // if value is nil, it is not added to the chart data
        if Get(value, dataset.dataSourceId) != Nil {
          // a dataset label, when given, names the bar; otherwise the category does
          var barGroup := if Given(dataset.seriesLabel) then Str(dataset.seriesLabel.value)
                          else Get(value, FieldKey(category));
          // grouped charts are never time-based
          var key, date;
          if Given(time) && chartType != Grouped {
            date, key := Some(Get(value, FieldKey(time))), Some(Get(value, FieldKey(time)));
          } else {
            date, key := None, Some(Get(value, FieldKey(category)));
          }
          row := row + [ChartRecord(barGroup, Get(value, dataset.dataSourceId), key, date)];
        }
      }
      assert series[..|series|] == series;
      EmitRecordsStep(series, group, i, category, time, chartType);
      data := data + row;
    }
    assert group[..|group|] == group;
  }

  /** The simple-chart branch of `formatChartData` grouped by category. */
  method FormatSimpleByCategory(series: seq<Series>, vs: seq<Record>, category: FieldId, time: FieldId)
    returns (data: seq<ChartRecord>)
    requires Given(category)
    requires |vs| > 0 ==> |series| > 0
    ensures data == ChartData(series, Some(vs), category, time, Simple)
  {
    data := [];
    assert GroupingField(category, time, Simple) == FieldKey(category);
    ghost var ss := Consulted(series, Simple);
    var uniqueDatasetNames := Unique(Column(vs, FieldKey(category)));
    var labeledData := Buckets(vs, FieldKey(category), uniqueDatasetNames);
    for g := 0 to |labeledData|
      invariant data == EmitKeys(ss, vs, FieldKey(category), uniqueDatasetNames[..g], category, time, Simple)
    {
      assert |labeledData[g]| <= |vs|;
      var records := SimpleCategoryRecords(series, labeledData[g], category, time);
      data := data + records;
      EmitKeysStep(ss, vs, FieldKey(category), uniqueDatasetNames, g, category, time, Simple);
    }
    assert uniqueDatasetNames[..|uniqueDatasetNames|] == uniqueDatasetNames;
  }

  /** The records one bucket of a simple chart grouped by category
      contributes: only the first series is consulted and the category value
      is the group. */
  method SimpleCategoryRecords(series: seq<Series>, dataset: seq<Record>, category: FieldId, time: FieldId)
    returns (data: seq<ChartRecord>)
    requires Given(category)
    requires |dataset| > 0 ==> |series| > 0
    ensures data == EmitRecords(Consulted(series, Simple), dataset, category, time, Simple)
  {
    data := [];
    for i := 0 to |dataset|
      invariant data == EmitRecords(Consulted(series, Simple), dataset[..i], category, time, Simple)
    {
      var value := dataset[i];
      SimpleCategoryStep(series, dataset, i, category, time);
      if Get(value, series[0].dataSourceId) != Nil {
        data := data + [ChartRecord(Get(value, FieldKey(category)), Get(value, series[0].dataSourceId), None, None)];
      }
    }
    assert dataset[..|dataset|] == dataset;
  }

  /** The simple-chart branch of `formatChartData` grouped by time. */
  method FormatSimpleByTime(series: seq<Series>, vs: seq<Record>, category: FieldId, time: FieldId)
    returns (data: seq<ChartRecord>)
    requires !Given(category)
    requires |vs| > 0 ==> |series| > 0
    ensures data == ChartData(series, Some(vs), category, time, Simple)
  {
    data := [];
    assert GroupingField(category, time, Simple) == FieldKey(time);
    ghost var ss := Consulted(series, Simple);
    var uniqueDatasetNames := Unique(Column(vs, FieldKey(time)));
    var labeledData := Buckets(vs, FieldKey(time), uniqueDatasetNames);
    for g := 0 to |labeledData|
      invariant data == EmitKeys(ss, vs, FieldKey(time), uniqueDatasetNames[..g], category, time, Simple)
    {
      assert |labeledData[g]| <= |vs|;
      var records := SimpleTimeRecords(series, labeledData[g], category, time);
      data := data + records;
      EmitKeysStep(ss, vs, FieldKey(time), uniqueDatasetNames, g, category, time, Simple);
    }
    assert uniqueDatasetNames[..|uniqueDatasetNames|] == uniqueDatasetNames;
  }

  /** The records one bucket of a simple chart grouped by time contributes:
      only the first series is consulted, its field name is the group and the
      record's timestamp becomes the date. */
  method SimpleTimeRecords(series: seq<Series>, dataset: seq<Record>, category: FieldId, time: FieldId)
    returns (data: seq<ChartRecord>)
    requires !Given(category)
    requires |dataset| > 0 ==> |series| > 0
    ensures data == EmitRecords(Consulted(series, Simple), dataset, category, time, Simple)
  {
    data := [];
    for i := 0 to |dataset|
      invariant data == EmitRecords(Consulted(series, Simple), dataset[..i], category, time, Simple)
    {
      var value := dataset[i];
      SimpleTimeStep(series, dataset, i, category, time);
      if Get(value, series[0].dataSourceId) != Nil {
        var dataDate := Get(value, FieldKey(time));
        data := data + [ChartRecord(Str(series[0].dataSourceId), Get(value, series[0].dataSourceId), None, Some(dataDate))];
      }
    }
    assert dataset[..|dataset|] == dataset;
  }

  // ---------------------------------------------------------------------------
  // Properties of ChartData

  /** The buckets of `keys`, concatenated. */
  function FlatBuckets(vs: seq<Record>, field: string, keys: seq<Value>): seq<Record> {
    if |keys| == 0 then []
    else FlatBuckets(vs, field, keys[..|keys| - 1]) + Bucket(vs, field, keys[|keys| - 1])
  }

  lemma EmitRecordsSnoc(ss: seq<Series>, rs: seq<Record>, r: Record, category: FieldId, time: FieldId, chartType: ChartType)
    ensures EmitRecords(ss, rs + [r], category, time, chartType)
         == EmitRecords(ss, rs, category, time, chartType) + EmitRow(ss, r, category, time, chartType)
  {
    assert (rs + [r])[..|rs|] == rs;
  }

  lemma EmitRecordsAppendStep(ss: seq<Series>, a: seq<Record>, init: seq<Record>, x: Record,
                              category: FieldId, time: FieldId, chartType: ChartType)
    requires EmitRecords(ss, a + init, category, time, chartType)
          == EmitRecords(ss, a, category, time, chartType) + EmitRecords(ss, init, category, time, chartType)
    ensures EmitRecords(ss, a + (init + [x]), category, time, chartType)
         == EmitRecords(ss, a, category, time, chartType) + EmitRecords(ss, init + [x], category, time, chartType)
  {
    var ea, ei, ex := EmitRecords(ss, a, category, time, chartType),
                      EmitRecords(ss, init, category, time, chartType),
                      EmitRow(ss, x, category, time, chartType);
    calc {
      EmitRecords(ss, a + (init + [x]), category, time, chartType);
      { assert a + (init + [x]) == (a + init) + [x]; }
      EmitRecords(ss, (a + init) + [x], category, time, chartType);
      { EmitRecordsSnoc(ss, a + init, x, category, time, chartType); }
      (ea + ei) + ex;
      ea + (ei + ex);
      { EmitRecordsSnoc(ss, init, x, category, time, chartType); }
      ea + EmitRecords(ss, init + [x], category, time, chartType);
    }
  }

  lemma {:induction false} EmitRecordsAppend(ss: seq<Series>, a: seq<Record>, b: seq<Record>,
                                             category: FieldId, time: FieldId, chartType: ChartType)
    ensures EmitRecords(ss, a + b, category, time, chartType)
         == EmitRecords(ss, a, category, time, chartType) + EmitRecords(ss, b, category, time, chartType)
    decreases |b|
  {
    if |b| == 0 {
      assert a + b == a;
    } else {
      var init := b[..|b| - 1];
      EmitRecordsAppend(ss, a, init, category, time, chartType);
      EmitRecordsAppendStep(ss, a, init, b[|b| - 1], category, time, chartType);
      assert init + [b[|b| - 1]] == b;
    }
  }

  lemma {:induction false} EmitKeysFlat(ss: seq<Series>, vs: seq<Record>, field: string, keys: seq<Value>,
                                        category: FieldId, time: FieldId, chartType: ChartType)
    ensures EmitKeys(ss, vs, field, keys, category, time, chartType)
         == EmitRecords(ss, FlatBuckets(vs, field, keys), category, time, chartType)
  {
    if |keys| > 0 {
      var init := keys[..|keys| - 1];
      EmitKeysFlat(ss, vs, field, init, category, time, chartType);
      EmitRecordsAppend(ss, FlatBuckets(vs, field, init), Bucket(vs, field, keys[|keys| - 1]), category, time, chartType);
    }
  }

  lemma BucketSnoc(vs: seq<Record>, x: Record, field: string, key: Value)
    ensures Bucket(vs + [x], field, key) == Bucket(vs, field, key) + if Get(x, field) == key then [x] else []
  {
    assert (vs + [x])[..|vs|] == vs;
  }

  lemma ColumnHas(vs: seq<Record>, field: string, r: Record)
    requires r in vs
    ensures Get(r, field) in Column(vs, field)
  {
    var i :| 0 <= i < |vs| && vs[i] == r;
    assert Column(vs, field)[i] == Get(r, field);
  }

  lemma {:induction false} FlatBucketsSnoc(vs: seq<Record>, x: Record, field: string, keys: seq<Value>)
    requires Distinct(keys)
    ensures multiset(FlatBuckets(vs + [x], field, keys))
         == multiset(FlatBuckets(vs, field, keys)) + if Get(x, field) in keys then multiset{x} else multiset{}
  {
    if |keys| > 0 {
      var init, k := keys[..|keys| - 1], keys[|keys| - 1];
      assert keys == init + [k];
      assert Distinct(init) by {
        forall i, j | 0 <= i < j < |init| ensures init[i] != init[j] {
          assert init[i] == keys[i] && init[j] == keys[j];
        }
      }
      assert k !in init by {
        forall i | 0 <= i < |init| ensures init[i] != k {
          assert init[i] == keys[i];
        }
      }
      FlatBucketsSnoc(vs, x, field, init);
      BucketSnoc(vs, x, field, k);
    }
  }

  lemma UniqueSnoc<T(!new)>(s: seq<T>, x: T)
    ensures Unique(s + [x]) == if x in Unique(s) then Unique(s) else Unique(s) + [x]
  {
    assert (s + [x])[..|s|] == s;
  }

  lemma FlatBucketsAppendKey(vs: seq<Record>, field: string, keys: seq<Value>, g: Value)
    ensures FlatBuckets(vs, field, keys + [g]) == FlatBuckets(vs, field, keys) + Bucket(vs, field, g)
  {
    assert (keys + [g])[..|keys|] == keys;
  }

  lemma BucketOfUnseen(vs: seq<Record>, field: string, g: Value)
    requires g !in Column(vs, field)
    ensures Bucket(vs, field, g) == []
  {
    if Bucket(vs, field, g) != [] {
      var r := Bucket(vs, field, g)[0];
      assert r in Bucket(vs, field, g);
      ColumnHas(vs, field, r);
    }
  }

  lemma ColumnSnoc(vs: seq<Record>, x: Record, field: string)
    ensures Column(vs + [x], field) == Column(vs, field) + [Get(x, field)]
  {
  }

  lemma PermutationStepSeen(p: seq<Record>, x: Record, field: string, keys: seq<Value>)
    requires Distinct(keys) && Get(x, field) in keys
    requires multiset(FlatBuckets(p, field, keys)) == multiset(p)
    ensures multiset(FlatBuckets(p + [x], field, keys)) == multiset(p + [x])
  {
    FlatBucketsSnoc(p, x, field, keys);
  }

  lemma PermutationStepUnseen(p: seq<Record>, x: Record, field: string, keys: seq<Value>)
    requires Distinct(keys) && Get(x, field) !in keys && Get(x, field) !in Column(p, field)
    requires multiset(FlatBuckets(p, field, keys)) == multiset(p)
    ensures multiset(FlatBuckets(p + [x], field, keys + [Get(x, field)])) == multiset(p + [x])
  {
    var g := Get(x, field);
    FlatBucketsSnoc(p, x, field, keys);
    FlatBucketsAppendKey(p + [x], field, keys, g);
    BucketSnoc(p, x, field, g);
    BucketOfUnseen(p, field, g);
    assert Bucket(p + [x], field, g) == [x];
  }

  /** Bucketing by the unique values of a field neither loses nor duplicates a
      record: the buckets together are a permutation of the input. */
  lemma {:induction false} BucketsArePermutation(vs: seq<Record>, field: string)
    ensures multiset(FlatBuckets(vs, field, Unique(Column(vs, field)))) == multiset(vs)
  {
    if |vs| > 0 {
      var p, x := vs[..|vs| - 1], vs[|vs| - 1];
      assert vs == p + [x];
      BucketsArePermutation(p, field);
      var cp, g := Column(p, field), Get(x, field);
      ColumnSnoc(p, x, field);
      UniqueSnoc(cp, g);
      if g in Unique(cp) {
        PermutationStepSeen(p, x, field, Unique(cp));
      } else {
        PermutationStepUnseen(p, x, field, Unique(cp));
      }
    }
  }

  lemma {:induction false} EmitRowSound(ss: seq<Series>, r: Record, c: ChartRecord,
                                        category: FieldId, time: FieldId, chartType: ChartType)
    requires c in EmitRow(ss, r, category, time, chartType)
    ensures exists s :: s in ss && Produces(c, r, s, category, time, chartType)
  {
    var init, last := ss[..|ss| - 1], ss[|ss| - 1];
    if c in EmitRow(init, r, category, time, chartType) {
      EmitRowSound(init, r, c, category, time, chartType);
      var s :| s in init && Produces(c, r, s, category, time, chartType);
      assert s in ss;
    } else {
      assert Produces(c, r, last, category, time, chartType);
    }
  }

  lemma {:induction false} EmitRowComplete(ss: seq<Series>, r: Record, s: Series,
                                           category: FieldId, time: FieldId, chartType: ChartType)
    requires s in ss && Get(r, s.dataSourceId) != Nil
    ensures MakeRecord(s, r, category, time, chartType) in EmitRow(ss, r, category, time, chartType)
  {
    var init := ss[..|ss| - 1];
    if s != ss[|ss| - 1] {
      assert ss == init + [ss[|ss| - 1]];
      EmitRowComplete(init, r, s, category, time, chartType);
    }
  }

  lemma {:induction false} EmitRecordsSound(ss: seq<Series>, rs: seq<Record>, c: ChartRecord,
                                            category: FieldId, time: FieldId, chartType: ChartType)
    requires c in EmitRecords(ss, rs, category, time, chartType)
    ensures exists r, s :: r in rs && s in ss && Produces(c, r, s, category, time, chartType)
  {
    var init, last := rs[..|rs| - 1], rs[|rs| - 1];
    if c in EmitRecords(ss, init, category, time, chartType) {
      EmitRecordsSound(ss, init, c, category, time, chartType);
      var r, s :| r in init && s in ss && Produces(c, r, s, category, time, chartType);
      assert r in rs;
    } else {
      EmitRowSound(ss, last, c, category, time, chartType);
    }
  }

  lemma {:induction false} EmitRecordsComplete(ss: seq<Series>, rs: seq<Record>, r: Record, s: Series,
                                               category: FieldId, time: FieldId, chartType: ChartType)
    requires r in rs && s in ss && Get(r, s.dataSourceId) != Nil
    ensures MakeRecord(s, r, category, time, chartType) in EmitRecords(ss, rs, category, time, chartType)
  {
    var init := rs[..|rs| - 1];
    if r == rs[|rs| - 1] {
      EmitRowComplete(ss, r, s, category, time, chartType);
    } else {
      assert rs == init + [rs[|rs| - 1]];
      EmitRecordsComplete(ss, init, r, s, category, time, chartType);
    }
  }

  /** ChartData over the records of all buckets, bucket after bucket, which
      together are a permutation of the input. */
  lemma ChartDataFlat(series: seq<Series>, vs: seq<Record>, category: FieldId, time: FieldId, chartType: ChartType)
    ensures var field := GroupingField(category, time, chartType);
            var flat := FlatBuckets(vs, field, Unique(Column(vs, field)));
            && ChartData(series, Some(vs), category, time, chartType)
               == EmitRecords(Consulted(series, chartType), flat, category, time, chartType)
            && multiset(flat) == multiset(vs)
  {
    var field := GroupingField(category, time, chartType);
    EmitKeysFlat(Consulted(series, chartType), vs, field, Unique(Column(vs, field)), category, time, chartType);
    BucketsArePermutation(vs, field);
  }

  /** Nil values produce nothing, and every chart record comes from an input
      record and a consulted series whose field in that record is not nil;
      conversely every such pair produces its chart record. */
  lemma ChartDataMembers(series: seq<Series>, values: Option<seq<Record>>,
                         category: FieldId, time: FieldId, chartType: ChartType)
    ensures values.None? ==> ChartData(series, values, category, time, chartType) == []
    ensures values.Some? ==> forall c :: c in ChartData(series, values, category, time, chartType) ==>
      exists r, s :: r in values.value && s in Consulted(series, chartType) && Produces(c, r, s, category, time, chartType)
    ensures values.Some? ==> forall r, s :: r in values.value && s in Consulted(series, chartType) && Get(r, s.dataSourceId) != Nil ==>
      MakeRecord(s, r, category, time, chartType) in ChartData(series, values, category, time, chartType)
  {
    if values.Some? {
      var vs, ss, field := values.value, Consulted(series, chartType), GroupingField(category, time, chartType);
      var flat := FlatBuckets(vs, field, Unique(Column(vs, field)));
      ChartDataFlat(series, vs, category, time, chartType);
      assert forall r :: r in flat <==> r in vs by {
        forall r ensures r in flat <==> r in vs {
          assert r in flat <==> r in multiset(flat);
          assert r in vs <==> r in multiset(vs);
        }
      }
      forall c | c in ChartData(series, values, category, time, chartType)
        ensures exists r, s :: r in vs && s in ss && Produces(c, r, s, category, time, chartType)
      {
        EmitRecordsSound(ss, flat, c, category, time, chartType);
      }
      forall r, s | r in vs && s in ss && Get(r, s.dataSourceId) != Nil
        ensures MakeRecord(s, r, category, time, chartType) in ChartData(series, values, category, time, chartType)
      {
        EmitRecordsComplete(ss, flat, r, s, category, time, chartType);
      }
    }
  }

  /** The shape of every chart record per chart type: a nil value never
      reaches the chart; grouped and category-stacked records carry some
      input record's category value as their key and no date; stacked
      time-based records carry some input record's timestamp as both key and
      date; simple records carry no key: bucketed by category, their group is
      some input record's category value, and bucketed by time, their date is
      some input record's timestamp and their group the first series' field
      name. */
  lemma ChartRecordShapes(series: seq<Series>, vs: seq<Record>, category: FieldId, time: FieldId, chartType: ChartType)
    ensures forall c :: c in ChartData(series, Some(vs), category, time, chartType) ==>
      && c.value != Nil
      && (chartType == Grouped ==> c.key.Some? && c.date.None?)
      && (chartType == Stacked && Given(time) ==> c.date.Some? && c.key == c.date)
      && (chartType == Stacked && !Given(time) ==> c.key.Some? && c.date.None?)
      && (chartType == Simple ==> c.key.None?)
      && (chartType == Simple && Given(category) ==> c.date.None?)
      && (chartType == Simple && !Given(category) ==>
            c.date.Some? && |series| > 0 && c.group == Str(series[0].dataSourceId))
    ensures forall c :: c in ChartData(series, Some(vs), category, time, chartType) ==>
      exists r ::
        && r in vs
        && (chartType != Simple && !TimeRouted(time, chartType) ==> c.key == Some(Get(r, FieldKey(category))))
        && (TimeRouted(time, chartType) ==> c.date == Some(Get(r, FieldKey(time))))
        && (chartType == Simple && Given(category) ==> c.group == Get(r, FieldKey(category)))
        && (chartType == Simple && !Given(category) ==> c.date == Some(Get(r, FieldKey(time))))
  {
    ChartDataMembers(series, Some(vs), category, time, chartType);
    forall c | c in ChartData(series, Some(vs), category, time, chartType)
      ensures c.value != Nil
      ensures chartType == Simple && !Given(category) ==> |series| > 0 && c.group == Str(series[0].dataSourceId)
      ensures exists r ::
        && r in vs
        && (chartType != Simple && !TimeRouted(time, chartType) ==> c.key == Some(Get(r, FieldKey(category))))
        && (TimeRouted(time, chartType) ==> c.date == Some(Get(r, FieldKey(time))))
        && (chartType == Simple && Given(category) ==> c.group == Get(r, FieldKey(category)))
        && (chartType == Simple && !Given(category) ==> c.date == Some(Get(r, FieldKey(time))))
    {
      var r, s :| r in vs && s in Consulted(series, chartType) && Produces(c, r, s, category, time, chartType);
    }
  }

  lemma {:induction false} EmitRowLength(ss: seq<Series>, r: Record, category: FieldId, time: FieldId, chartType: ChartType)
    ensures |EmitRow(ss, r, category, time, chartType)| <= |ss|
  {
    if |ss| > 0 {
      EmitRowLength(ss[..|ss| - 1], r, category, time, chartType);
    }
  }

  lemma {:induction false} EmitRecordsLength(ss: seq<Series>, rs: seq<Record>, category: FieldId, time: FieldId, chartType: ChartType)
    ensures |EmitRecords(ss, rs, category, time, chartType)| <= |rs| * |ss|
    ensures |ss| <= 1 ==> |EmitRecords(ss, rs, category, time, chartType)| <= |rs|
  {
    if |rs| > 0 {
      EmitRecordsLength(ss, rs[..|rs| - 1], category, time, chartType);
      EmitRowLength(ss, rs[|rs| - 1], category, time, chartType);
      assert |rs| * |ss| == (|rs| - 1) * |ss| + |ss|;
    }
  }

  /** At most one chart record per raw record and series; a simple chart
      consults one series only. */
  lemma ChartDataSize(series: seq<Series>, vs: seq<Record>, category: FieldId, time: FieldId, chartType: ChartType)
    ensures chartType != Simple ==> |ChartData(series, Some(vs), category, time, chartType)| <= |vs| * |series|
    ensures chartType == Simple ==> |ChartData(series, Some(vs), category, time, chartType)| <= |vs|
  {
    var field := GroupingField(category, time, chartType);
    var flat := FlatBuckets(vs, field, Unique(Column(vs, field)));
    ChartDataFlat(series, vs, category, time, chartType);
    assert |flat| == |multiset(flat)| == |vs|;
    EmitRecordsLength(Consulted(series, chartType), flat, category, time, chartType);
  }

  /** The bucket a chart record falls in: the value of the grouping field it
      was built from. */
  function BucketKey(c: ChartRecord, category: FieldId, chartType: ChartType): Value {
    if chartType != Simple then (if c.key.Some? then c.key.value else Nil)
    else if Given(category) then c.group
    else if c.date.Some? then c.date.value else Nil
  }

  lemma BucketKeyOfRecord(s: Series, r: Record, category: FieldId, time: FieldId, chartType: ChartType)
    ensures BucketKey(MakeRecord(s, r, category, time, chartType), category, chartType)
         == Get(r, GroupingField(category, time, chartType))
  {
  }

  /** The position at which a chart record's bucket value first occurs in a
      column, `|col|` when it does not occur. */
  function Rank(col: seq<Value>, category: FieldId, chartType: ChartType, c: ChartRecord): nat {
    var k := BucketKey(c, category, chartType);
    if k in col then FirstIndex(col, k) else |col|
  }

  predicate RankOrdered(out: seq<ChartRecord>, col: seq<Value>, category: FieldId, chartType: ChartType) {
    forall i, j :: 0 <= i < j < |out| ==> Rank(col, category, chartType, out[i]) <= Rank(col, category, chartType, out[j])
  }

  lemma RankOrderedAppend(a: seq<ChartRecord>, b: seq<ChartRecord>, col: seq<Value>, category: FieldId,
                          chartType: ChartType, k: nat)
    requires RankOrdered(a, col, category, chartType)
    requires forall c :: c in a ==> Rank(col, category, chartType, c) < k
    requires forall c :: c in b ==> Rank(col, category, chartType, c) == k
    ensures RankOrdered(a + b, col, category, chartType)
  {
    var out := a + b;
    forall i, j | 0 <= i < j < |out|
      ensures Rank(col, category, chartType, out[i]) <= Rank(col, category, chartType, out[j])
    {
      if j < |a| {
        assert out[i] == a[i] && out[j] == a[j];
      } else if i >= |a| {
        assert out[i] == b[i - |a|] && out[j] == b[j - |a|];
        assert out[i] in b && out[j] in b;
      } else {
        assert out[i] == a[i] && out[j] == b[j - |a|];
        assert out[i] in a && out[j] in b;
      }
    }
  }

  /** Every record of the bucket of `key` falls in that bucket. */
  lemma BucketRecordsKey(ss: seq<Series>, vs: seq<Record>, key: Value, category: FieldId, time: FieldId, chartType: ChartType)
    ensures forall c :: c in EmitRecords(ss, Bucket(vs, GroupingField(category, time, chartType), key), category, time, chartType) ==>
      BucketKey(c, category, chartType) == key
  {
    var field := GroupingField(category, time, chartType);
    forall c | c in EmitRecords(ss, Bucket(vs, field, key), category, time, chartType)
      ensures BucketKey(c, category, chartType) == key
    {
      EmitRecordsSound(ss, Bucket(vs, field, key), c, category, time, chartType);
      var r, s :| r in Bucket(vs, field, key) && s in ss && Produces(c, r, s, category, time, chartType);
      BucketKeyOfRecord(s, r, category, time, chartType);
    }
  }

  /** Records whose bucket value is among the first `m` unique values rank
      below the `m`-th unique value. */
  lemma EarlierBucketsRankLower(a: seq<ChartRecord>, col: seq<Value>, u: seq<Value>, m: nat,
                                category: FieldId, chartType: ChartType)
    requires u == Unique(col) && m < |u|
    requires forall c :: c in a ==> BucketKey(c, category, chartType) in u[..m]
    ensures forall c :: c in a ==> BucketKey(c, category, chartType) in u[..m + 1]
    ensures forall c :: c in a ==> Rank(col, category, chartType, c) < FirstIndex(col, u[m])
  {
    forall c | c in a
      ensures BucketKey(c, category, chartType) in u[..m + 1]
      ensures Rank(col, category, chartType, c) < FirstIndex(col, u[m])
    {
      var k := BucketKey(c, category, chartType);
      var t :| 0 <= t < m && u[..m][t] == k;
      assert u[t] == k && u[..m + 1][t] == k;
      assert k in col;
      UniqueOrderAt(col, t, m);
    }
  }

  lemma {:induction false} EmitKeysOrdered(ss: seq<Series>, vs: seq<Record>, category: FieldId, time: FieldId,
                                           chartType: ChartType, col: seq<Value>, u: seq<Value>, n: nat)
    requires col == Column(vs, GroupingField(category, time, chartType)) && u == Unique(col)
    requires n <= |u|
    ensures forall c :: c in EmitKeys(ss, vs, GroupingField(category, time, chartType), u[..n], category, time, chartType) ==>
      BucketKey(c, category, chartType) in u[..n]
    ensures RankOrdered(EmitKeys(ss, vs, GroupingField(category, time, chartType), u[..n], category, time, chartType),
                        col, category, chartType)
  {
    if n > 0 {
      var field := GroupingField(category, time, chartType);
      var m := n - 1;
      EmitKeysOrdered(ss, vs, category, time, chartType, col, u, m);
      var a := EmitKeys(ss, vs, field, u[..m], category, time, chartType);
      var b := EmitRecords(ss, Bucket(vs, field, u[m]), category, time, chartType);
      EmitKeysStep(ss, vs, field, u, m, category, time, chartType);
      BucketRecordsKey(ss, vs, u[m], category, time, chartType);
      EarlierBucketsRankLower(a, col, u, m, category, chartType);
      assert u[..n][m] == u[m];
      RankOrderedAppend(a, b, col, category, chartType, FirstIndex(col, u[m]));
    }
  }

  /** Chart records come bucket by bucket, the buckets in the order in which
      their grouping value first occurs in the input. */
  lemma ChartDataFirstSeenOrder(series: seq<Series>, vs: seq<Record>, category: FieldId, time: FieldId, chartType: ChartType)
    ensures forall c :: c in ChartData(series, Some(vs), category, time, chartType) ==>
      BucketKey(c, category, chartType) in Column(vs, GroupingField(category, time, chartType))
    ensures RankOrdered(ChartData(series, Some(vs), category, time, chartType),
                        Column(vs, GroupingField(category, time, chartType)), category, chartType)
  {
    var col := Column(vs, GroupingField(category, time, chartType));
    var u := Unique(col);
    assert u[..|u|] == u;
    EmitKeysOrdered(Consulted(series, chartType), vs, category, time, chartType, col, u, |u|);
  }
}
