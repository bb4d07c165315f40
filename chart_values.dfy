/** The values the bar-chart utilities work on: raw records, series declarations,
    chart types and layouts, and the normalized records handed to the chart. */
module ChartValues {

  datatype Option<T> = None | Some(value: T)

  /** A primitive field value of a raw record. `Nil` stands for both `null` and
      `undefined`, which `isNil` does not tell apart. */
  datatype Value = Num(n: int) | Str(s: string) | Nil

  /** JavaScript truthiness of a value: `0`, `""`, `null` and `undefined` are falsy. */
  predicate Truthy(v: Value) {
    match v
    case Num(n) => n != 0
    case Str(s) => s != ""
    case Nil => false
  }

  /** An optional string argument or property (`timeDataSourceId`, `series.label`, ...). */
  type FieldId = Option<string>

  /** JavaScript truthiness of an optional string: absent or empty is falsy. */
  predicate Given(f: Option<string>) {
    f.Some? && f.value != ""
  }

  /** The property name an optional string stands for when it is used as an
      object key: an absent one is converted to the string "undefined". */
  function FieldKey(f: Option<string>): (k: string)
    ensures f.Some? ==> k == f.value
  {
    if f.Some? then f.value else "undefined"
  }

  /** A raw record: a map from field name to value, with no fixed shape. */
  type Record = map<string, Value>

  /** `record[field]`: a missing field reads as undefined. Records are plain
      data here: properties inherited from `Object.prototype` are not seen. */
  function Get(r: Record, field: string): (v: Value)
    ensures field !in r ==> v == Nil
  {
    if field in r then r[field] else Nil
  }

  /** `values.map(val => val[field])`. */
  function Column(vs: seq<Record>, field: string): (col: seq<Value>)
    ensures |col| == |vs|
    ensures forall i :: 0 <= i < |vs| ==> col[i] == Get(vs[i], field)
  {
    seq(|vs|, i requires 0 <= i < |vs| => Get(vs[i], field))
  }

  /** `values.filter(val => val[field] === key)`: the records whose field holds
      `key`, in input order. */
  function Bucket(vs: seq<Record>, field: string, key: Value): (b: seq<Record>)
    ensures |b| <= |vs|
    ensures forall r :: r in b <==> r in vs && Get(r, field) == key
  {
    if |vs| == 0 then []
    else
      var last := vs[|vs| - 1];
      assert vs == vs[..|vs| - 1] + [last];
      Bucket(vs[..|vs| - 1], field, key) + (if Get(last, field) == key then [last] else [])
  }

  /** `keys.map(key => values.filter(val => val[field] === key))`. */
  function Buckets(vs: seq<Record>, field: string, keys: seq<Value>): (bs: seq<seq<Record>>)
    ensures |bs| == |keys|
    ensures forall i :: 0 <= i < |keys| ==> bs[i] == Bucket(vs, field, keys[i])
  {
    seq(|keys|, i requires 0 <= i < |keys| => Bucket(vs, field, keys[i]))
  }

  datatype ChartType = Simple | Grouped | Stacked

  datatype Layout = Vertical | Horizontal

  /** The colour of a series: an array of colours, one colour string, or an
      object from group name to colour; `NoColor` when the property is absent. */
  datatype ColorSpec =
    | NoColor
    | ColorList(colors: seq<Value>)
    | ColorString(color: string)
    | ColorMap(scale: map<string, Value>)

  /** JavaScript truthiness of a colour property: arrays and objects are truthy,
      a string only when it is not empty. */
  predicate ColorGiven(c: ColorSpec) {
    match c
    case NoColor => false
    case ColorString(s) => s != ""
    case _ => true
  }

  /** One plotted series: the field holding its measurement, an optional
      display label and an optional colour. */
  datatype Series = Series(dataSourceId: string, seriesLabel: Option<string>, color: ColorSpec)

  /** A normalized chart record `{group, value, key?, date?}`; `None` means the
      property is absent. A date is represented by the raw timestamp it was built from. */
  datatype ChartRecord = ChartRecord(group: Value, value: Value, key: Option<Value>, date: Option<Value>)

  function Digit(d: nat): (c: char)
    requires d < 10
  {
    "0123456789"[d]
  }

  /** The decimal rendering of a natural number, as template strings produce it. */
  function NatToString(n: nat): (s: string)
    ensures |s| >= 1
    ensures n < 10 <==> |s| == 1
    ensures s[|s| - 1] == Digit(n % 10)
    decreases n
  {
    if n < 10 then [Digit(n)] else NatToString(n / 10) + [Digit(n % 10)]
  }

  lemma DigitInjective(a: nat, b: nat)
    requires a < 10 && b < 10 && Digit(a) == Digit(b)
    ensures a == b
  {
  }

  /** Distinct numbers render as distinct strings. */
  lemma {:induction false} NatToStringInjective(a: nat, b: nat)
    requires NatToString(a) == NatToString(b)
    ensures a == b
    decreases a
  {
    DigitInjective(a % 10, b % 10);
    if a >= 10 {
      var sa, sb := NatToString(a), NatToString(b);
      assert sa[..|sa| - 1] == NatToString(a / 10);
      assert sb[..|sb| - 1] == NatToString(b / 10);
      NatToStringInjective(a / 10, b / 10);
    }
  }
}
