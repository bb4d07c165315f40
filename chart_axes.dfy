/** `mapValuesToAxes`: which property of the chart records each axis of the
    bar chart reads. */
module ChartAxes {
  import opened ChartValues
  import opened ChartRecords

  /** The chart-record property an axis maps to: 'date', 'value', 'key' or 'group'. */
  datatype AxisField = DateField | ValueField | KeyField | GroupField

  /** `{ bottomAxesMapsTo, leftAxesMapsTo }`. */
  datatype AxisMap = AxisMap(bottomAxesMapsTo: AxisField, leftAxesMapsTo: AxisField)

  /** The axis that does not show the value: dates when a time field is given,
      otherwise keys when a category field is given and the chart is not
      simple, otherwise groups. A vertical layout puts it at the bottom and the
      value on the left; any other layout does the opposite. */
  function MapValuesToAxes(layout: Layout, category: FieldId, time: FieldId, chartType: ChartType): (m: AxisMap)
    ensures layout == Vertical ==> m.leftAxesMapsTo == ValueField && m.bottomAxesMapsTo != ValueField
    ensures layout == Horizontal ==> m.bottomAxesMapsTo == ValueField && m.leftAxesMapsTo != ValueField
    ensures var other := if layout == Vertical then m.bottomAxesMapsTo else m.leftAxesMapsTo;
            && (other == DateField <==> Given(time))
            && (other == KeyField <==> !Given(time) && Given(category) && chartType != Simple)
            && (other == GroupField <==> !Given(time) && !(Given(category) && chartType != Simple))
  {
    if layout == Vertical then
      if Given(time) then AxisMap(DateField, ValueField)
      else if Given(category) && chartType != Simple then AxisMap(KeyField, ValueField)
      else AxisMap(GroupField, ValueField)
    else if Given(time) then AxisMap(ValueField, DateField)
    else if Given(category) && chartType != Simple then AxisMap(ValueField, KeyField)
    else AxisMap(ValueField, GroupField)
  }

  /** The horizontal mapping is the vertical one with the two axes swapped. */
  lemma HorizontalIsSwappedVertical(category: FieldId, time: FieldId, chartType: ChartType)
    ensures MapValuesToAxes(Horizontal, category, time, chartType).bottomAxesMapsTo
         == MapValuesToAxes(Vertical, category, time, chartType).leftAxesMapsTo
    ensures MapValuesToAxes(Horizontal, category, time, chartType).leftAxesMapsTo
         == MapValuesToAxes(Vertical, category, time, chartType).bottomAxesMapsTo
  {
  }

  /** Whether a chart record carries the property an axis reads. */
  predicate Carries(c: ChartRecord, f: AxisField) {
    match f
    case DateField => c.date.Some?
    case KeyField => c.key.Some?
    case _ => true
  }

  /** Both axes read a property every chart record carries, except for a
      grouped chart with a time field (its records have no date) and a simple
      chart with both fields (its records are bucketed by category and have no
      date either). */
  lemma AxesReadCarriedFields(layout: Layout, series: seq<Series>, vs: seq<Record>,
                              category: FieldId, time: FieldId, chartType: ChartType)
    requires !(chartType == Grouped && Given(time))
    requires !(chartType == Simple && Given(time) && Given(category))
    ensures forall c :: c in ChartData(series, Some(vs), category, time, chartType) ==>
      && Carries(c, MapValuesToAxes(layout, category, time, chartType).bottomAxesMapsTo)
      && Carries(c, MapValuesToAxes(layout, category, time, chartType).leftAxesMapsTo)
  {
    ChartRecordShapes(series, vs, category, time, chartType);
  }

  /** A grouped chart with a time field maps an axis to 'date', yet none of its
      chart records carries a date. */
  lemma GroupedTimeAxisReadsNoDate(layout: Layout, series: seq<Series>, vs: seq<Record>,
                                   category: FieldId, time: FieldId)
    requires Given(time)
    ensures var m := MapValuesToAxes(layout, category, time, Grouped);
            m.bottomAxesMapsTo == DateField || m.leftAxesMapsTo == DateField
    ensures forall c :: c in ChartData(series, Some(vs), category, time, Grouped) ==> !Carries(c, DateField)
  {
    ChartRecordShapes(series, vs, category, time, Grouped);
  }
}
