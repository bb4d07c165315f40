/** `formatColors`: the Carbon Charts colour configuration `{identifier, scale}`
    that maps every bar group name to a colour. */
module ChartColors {
  import opened ChartValues
  import opened Sequences

  /** A Carbon colour family: intensity (10, 20, ..., 100) to colour string. */
  type Palette = map<int, string>

  /** Group name to colour. Colours are kept as raw values, since a colour
      config may hold anything; `Get` reads a colour, undefined when absent. */
  type Scale = map<string, Value>

  /** `{ identifier, scale }`. */
  datatype Colors = Colors(identifier: string, scale: Scale)

  /** `palette[intensity]`. */
  function Shade(p: Palette, intensity: int): (v: Value)
    ensures intensity in p ==> v == Str(p[intensity])
  {
    if intensity in p then Str(p[intensity]) else Nil
  }

  /** `datasetNames[index]` used as a key: past the end it reads "undefined". */
  function NameAt(names: seq<string>, index: nat): string {
    if index < |names| then names[index] else "undefined"
  }

  /** `dataset.label` used as a key. */
  function LabelKey(s: Series): string {
    FieldKey(s.seriesLabel)
  }

  /** The keys an array colour config of `n` colours writes, in order. */
  function ArrayKeys(names: seq<string>, n: nat): (ks: seq<string>)
    ensures |ks| == n
    ensures forall i :: 0 <= i < n ==> ks[i] == NameAt(names, i)
  {
    seq(n, i requires 0 <= i < n => NameAt(names, i))
  }

  /** The scale after `colors.forEach((color, index) => scale[datasetNames[index]] = color)`. */
  function ArrayScale(cs: seq<Value>, names: seq<string>): Scale
    decreases |cs|
  {
    if |cs| == 0 then map[]
    else ArrayScale(cs[..|cs| - 1], names)[NameAt(names, |cs| - 1) := cs[|cs| - 1]]
  }

  /** An array used as the scale object: its properties are the decimal indices. */
  function IndexObject(cs: seq<Value>): Scale
    decreases |cs|
  {
    if |cs| == 0 then map[]
    else IndexObject(cs[..|cs| - 1])[NatToString(|cs| - 1) := cs[|cs| - 1]]
  }

  /** One series' colour applied to the scale: a non-empty string colours the
      series' label, an object (or a later array) replaces the whole scale. */
  function ApplySeries(scale: Scale, s: Series): Scale {
    match s.color
    case NoColor => scale
    case ColorString(c) => if c == "" then scale else scale[LabelKey(s) := Str(c)]
    case ColorMap(m) => m
    case ColorList(cs) => IndexObject(cs)
  }

  /** The series' colours applied in order. */
  function ApplyAll(scale: Scale, ss: seq<Series>): Scale
    decreases |ss|
  {
    if |ss| == 0 then scale
    else ApplySeries(ApplyAll(scale, ss[..|ss| - 1]), ss[|ss| - 1])
  }

  /** The scale before the defaults are filled in: from the first series'
      array, if it has one, otherwise from every series' colour. */
  function InitialScale(series: seq<Series>, names: seq<string>): Scale
    requires |series| > 0
  {
    if series[0].color.ColorList? then ArrayScale(series[0].color.colors, names)
    else ApplyAll(map[], series)
  }

  /** The scale and the intensity counter while the names are filled in. */
  datatype FillState = FillState(scale: Scale, intensity: int)

  /** One name at `index`: the disabled palette in editable mode; otherwise a
      default palette colour when the name has no truthy colour, moving the
      intensity on when that happens at index 0. */
  function FillStep(st: FillState, name: string, index: nat, isEditable: bool,
                    defaults: seq<Palette>, disabled: seq<string>): FillState
    requires |defaults| > 0 && |disabled| > 0
  {
    if isEditable then
      FillState(st.scale[name := Str(disabled[index % |disabled|])], st.intensity)
    else if !Truthy(Get(st.scale, name)) then
      FillState(st.scale[name := Shade(defaults[index % |defaults|], st.intensity)],
                if index == 0 then (if st.intensity != 100 then st.intensity + 10 else 40) else st.intensity)
    else st
  }

  /** The names filled in order, their index being their position. */
  function Fill(names: seq<string>, isEditable: bool, defaults: seq<Palette>, disabled: seq<string>,
                st: FillState): FillState
    requires |defaults| > 0 && |disabled| > 0
    decreases |names|
  {
    if |names| == 0 then st
    else FillStep(Fill(names[..|names| - 1], isEditable, defaults, disabled, st),
                  names[|names| - 1], |names| - 1, isEditable, defaults, disabled)
  }

  /** The colour configuration for `series` and the dataset names. */
  function ColorConfig(series: seq<Series>, names: seq<string>, isEditable: bool,
                       defaults: seq<Palette>, disabled: seq<string>): Colors
    requires |series| > 0 && |defaults| > 0 && |disabled| > 0
  {
    Colors("group", Fill(names, isEditable, defaults, disabled, FillState(InitialScale(series, names), 50)).scale)
  }

  /** `formatColors(series, datasetNames, isEditable)`, with the default colour
      families and the disabled colours passed in. */
  method FormatColors(series: seq<Series>, datasetNames: seq<string>, isEditable: bool,
                      defaults: seq<Palette>, disabled: seq<string>) returns (colors: Colors)
    requires |series| > 0 && |defaults| > 0 && |disabled| > 0
    ensures colors == ColorConfig(series, datasetNames, isEditable, defaults, disabled)
  {
    var scale: Scale := map[];
    if series[0].color.ColorList? {
      var cs := series[0].color.colors;
      for index := 0 to |cs|
        invariant scale == ArrayScale(cs[..index], datasetNames)
      {
        assert cs[..index + 1][..index] == cs[..index];
        scale := scale[NameAt(datasetNames, index) := cs[index]];
      }
      assert cs[..|cs|] == cs;
    } else {
      for i := 0 to |series|
        invariant scale == ApplyAll(map[], series[..i])
      {
        var dataset := series[i];
        assert series[..i + 1][..i] == series[..i];
        if ColorGiven(dataset.color) {
          if dataset.color.ColorString? {
            scale := scale[LabelKey(dataset) := Str(dataset.color.color)];
          } else if dataset.color.ColorMap? {
            scale := dataset.color.scale;
          } else {
            scale := IndexObject(dataset.color.colors);
          }
        }
      }
      assert series[..|series|] == series;
    }
    ghost var initial := scale;
    var intensity := 50;
    for index := 0 to |datasetNames|
      invariant FillState(scale, intensity)
             == Fill(datasetNames[..index], isEditable, defaults, disabled, FillState(initial, 50))
    {
      var dataset := datasetNames[index];
      assert datasetNames[..index + 1][..index] == datasetNames[..index];
      if isEditable {
        scale := scale[dataset := Str(disabled[index % |disabled|])];
      } else if !Truthy(Get(scale, dataset)) {
        scale := scale[dataset := Shade(defaults[index % |defaults|], intensity)];
        if index == 0 {
          if intensity != 100 {
            intensity := intensity + 10;
          } else {
            intensity := 40;
          }
        }
      }
    }
    assert datasetNames[..|datasetNames|] == datasetNames;
    colors := Colors("group", scale);
  }

  // ---------------------------------------------------------------------------
  // Properties

  /** Filling touches the dataset names only. */
  lemma {:induction false} FillOnlyNames(names: seq<string>, isEditable: bool, defaults: seq<Palette>,
                                         disabled: seq<string>, st: FillState, k: string)
    requires |defaults| > 0 && |disabled| > 0
    requires k !in names
    ensures Get(Fill(names, isEditable, defaults, disabled, st).scale, k) == Get(st.scale, k)
  {
    if |names| > 0 {
      FillOnlyNames(names[..|names| - 1], isEditable, defaults, disabled, st, k);
    }
  }

  /** In editable mode every name gets the disabled colour of its (last) index. */
  lemma {:induction false} FillEditable(names: seq<string>, defaults: seq<Palette>, disabled: seq<string>,
                                        st: FillState, name: string)
    requires |defaults| > 0 && |disabled| > 0
    requires name in names
    ensures Get(Fill(names, true, defaults, disabled, st).scale, name)
         == Str(disabled[LastIndex(names, name) % |disabled|])
  {
    if names[|names| - 1] != name {
      assert names == names[..|names| - 1] + [names[|names| - 1]];
      FillEditable(names[..|names| - 1], defaults, disabled, st, name);
    }
  }

  /** Outside editable mode a truthy colour is never replaced. */
  lemma {:induction false} FillKeepsTruthy(names: seq<string>, defaults: seq<Palette>, disabled: seq<string>,
                                           st: FillState, k: string)
    requires |defaults| > 0 && |disabled| > 0
    requires Truthy(Get(st.scale, k))
    ensures Get(Fill(names, false, defaults, disabled, st).scale, k) == Get(st.scale, k)
  {
    if |names| > 0 {
      FillKeepsTruthy(names[..|names| - 1], defaults, disabled, st, k);
    }
  }

  /** The intensity a default colour at `index` is taken with outside editable
      mode: 60 after the first name fell back to a default, 50 before. */
  function FallbackIntensity(names: seq<string>, initial: Scale, index: nat): int {
    if index > 0 && |names| > 0 && !Truthy(Get(initial, names[0])) then 60 else 50
  }

  /** The intensity counter starts at 50 and moves only once, to 60, when the
      name at index 0 falls back to a default; the wrap from 100 to 40 is
      never reached. */
  lemma {:induction false} FillIntensity(names: seq<string>, isEditable: bool, defaults: seq<Palette>,
                                         disabled: seq<string>, initial: Scale)
    requires |defaults| > 0 && |disabled| > 0
    ensures var i := Fill(names, isEditable, defaults, disabled, FillState(initial, 50)).intensity;
            && (isEditable ==> i == 50)
            && (!isEditable ==> i == FallbackIntensity(names, initial, |names|))
            && (i == 50 || i == 60)
  {
    if |names| > 1 {
      var init := names[..|names| - 1];
      FillIntensity(init, isEditable, defaults, disabled, initial);
      assert init[0] == names[0];
    }
  }

  /** The Carbon colour families define non-empty colours at intensities 50 and 60. */
  predicate ShadesPresent(defaults: seq<Palette>) {
    forall p :: p in defaults ==> 50 in p && 60 in p && p[50] != "" && p[60] != ""
  }

  /** A name without a truthy colour gets the default family at its first
      index modulo the number of families, at the fallback intensity. */
  lemma {:induction false} FillFallback(names: seq<string>, defaults: seq<Palette>, disabled: seq<string>,
                                        initial: Scale, name: string)
    requires |defaults| > 0 && |disabled| > 0 && ShadesPresent(defaults)
    requires name in names && !Truthy(Get(initial, name))
    ensures Get(Fill(names, false, defaults, disabled, FillState(initial, 50)).scale, name)
         == Shade(defaults[FirstIndex(names, name) % |defaults|], FallbackIntensity(names, initial, FirstIndex(names, name)))
  {
    var n := |names|;
    var init, last := names[..n - 1], names[n - 1];
    assert names == init + [last];
    var st := Fill(init, false, defaults, disabled, FillState(initial, 50));
    if name in init {
      FirstIndexSnoc(init, last, name);
      FillFallback(init, defaults, disabled, initial, name);
      var i := FirstIndex(init, name);
      assert init[0] == names[0];
      assert defaults[i % |defaults|] in defaults;
      assert Truthy(Get(st.scale, name));
    } else {
      FirstIndexIs(names, name, n - 1);
      FillOnlyNames(init, false, defaults, disabled, FillState(initial, 50), name);
      FillIntensity(init, false, defaults, disabled, initial);
      if n > 1 {
        assert init[0] == names[0];
      }
    }
  }

  /** In editable mode every dataset name gets the disabled colour of its
      index, whatever colours were configured; other keys keep their
      configured colour. */
  lemma EditableColors(series: seq<Series>, names: seq<string>, defaults: seq<Palette>, disabled: seq<string>)
    requires |series| > 0 && |defaults| > 0 && |disabled| > 0
    ensures ColorConfig(series, names, true, defaults, disabled).identifier == "group"
    ensures forall name :: name in names ==>
      Get(ColorConfig(series, names, true, defaults, disabled).scale, name)
        == Str(disabled[LastIndex(names, name) % |disabled|])
    ensures forall k :: k !in names ==>
      Get(ColorConfig(series, names, true, defaults, disabled).scale, k) == Get(InitialScale(series, names), k)
  {
    var st := FillState(InitialScale(series, names), 50);
    forall name | name in names
      ensures Get(ColorConfig(series, names, true, defaults, disabled).scale, name)
           == Str(disabled[LastIndex(names, name) % |disabled|])
    {
      FillEditable(names, defaults, disabled, st, name);
    }
    forall k | k !in names
      ensures Get(ColorConfig(series, names, true, defaults, disabled).scale, k) == Get(InitialScale(series, names), k)
    {
      FillOnlyNames(names, true, defaults, disabled, st, k);
    }
  }

  /** Outside editable mode a configured truthy colour is kept, and every
      other dataset name falls back to a default colour, so every name ends
      up coloured. */
  lemma ConfiguredOrDefaultColors(series: seq<Series>, names: seq<string>, defaults: seq<Palette>, disabled: seq<string>)
    requires |series| > 0 && |defaults| > 0 && |disabled| > 0 && ShadesPresent(defaults)
    ensures var initial := InitialScale(series, names);
            var scale := ColorConfig(series, names, false, defaults, disabled).scale;
            && (forall k :: Truthy(Get(initial, k)) ==> Get(scale, k) == Get(initial, k))
            && (forall name :: name in names && !Truthy(Get(initial, name)) ==>
                  Get(scale, name) == Shade(defaults[FirstIndex(names, name) % |defaults|],
                                               FallbackIntensity(names, initial, FirstIndex(names, name))))
            && (forall name :: name in names ==> Truthy(Get(scale, name)))
  {
    var initial := InitialScale(series, names);
    var st := FillState(initial, 50);
    forall k | Truthy(Get(initial, k))
      ensures Get(Fill(names, false, defaults, disabled, st).scale, k) == Get(initial, k)
    {
      FillKeepsTruthy(names, defaults, disabled, st, k);
    }
    forall name | name in names && !Truthy(Get(initial, name))
      ensures Get(Fill(names, false, defaults, disabled, st).scale, name)
           == Shade(defaults[FirstIndex(names, name) % |defaults|], FallbackIntensity(names, initial, FirstIndex(names, name)))
    {
      FillFallback(names, defaults, disabled, initial, name);
      assert defaults[FirstIndex(names, name) % |defaults|] in defaults;
    }
  }

  /** An array config: each key holds the colour of the last index that
      wrote it; keys no index wrote are absent. */
  lemma {:induction false} ArrayScaleLast(cs: seq<Value>, names: seq<string>, k: string)
    ensures k in ArrayKeys(names, |cs|) ==> Get(ArrayScale(cs, names), k) == cs[LastIndex(ArrayKeys(names, |cs|), k)]
    ensures k !in ArrayKeys(names, |cs|) ==> k !in ArrayScale(cs, names)
    decreases |cs|
  {
    if |cs| > 0 {
      var n := |cs|;
      var ks := ArrayKeys(names, n);
      assert ArrayKeys(names, n - 1) == ks[..n - 1];
      ArrayScaleLast(cs[..n - 1], names, k);
    }
  }

  /** With distinct dataset names, none of them "undefined", the array
      config's colour at each index lands on the name at that index. */
  lemma ArrayColorsByIndex(series: seq<Series>, names: seq<string>, i: nat)
    requires |series| > 0 && series[0].color.ColorList?
    requires Distinct(names) && "undefined" !in names
    requires i < |series[0].color.colors| && i < |names|
    ensures Get(InitialScale(series, names), names[i]) == series[0].color.colors[i]
  {
    var cs := series[0].color.colors;
    var ks := ArrayKeys(names, |cs|);
    ArrayScaleLast(cs, names, names[i]);
    assert ks[i] == names[i];
  }

  lemma {:induction false} ApplyAllReplaced(scale: Scale, ss: seq<Series>, k: nat)
    requires k < |ss| && (ss[k].color.ColorMap? || ss[k].color.ColorList?)
    ensures ApplyAll(scale, ss) == ApplyAll(ApplySeries(map[], ss[k]), ss[k + 1..])
    decreases |ss|
  {
    var n := |ss|;
    if k < n - 1 {
      ApplyAllReplaced(scale, ss[..n - 1], k);
      assert ss[..n - 1][k + 1..] == ss[k + 1..n - 1];
      assert ss[k + 1..][..|ss[k + 1..]| - 1] == ss[k + 1..n - 1];
    }
  }

  /** Without an array at the first series, an object colour (or a later
      array, read as an object keyed by index) discards every colour set
      before it: only the series after it still apply. */
  lemma ObjectColorReplacesScale(series: seq<Series>, names: seq<string>, k: nat)
    requires k < |series| && !series[0].color.ColorList?
    requires series[k].color.ColorMap? || series[k].color.ColorList?
    ensures InitialScale(series, names) == ApplyAll(ApplySeries(map[], series[k]), series[k + 1..])
    ensures series[k].color.ColorMap? ==> InitialScale(series, names) == ApplyAll(series[k].color.scale, series[k + 1..])
  {
    ApplyAllReplaced(map[], series, k);
  }

  lemma {:induction false} ApplyAllString(scale: Scale, ss: seq<Series>, k: nat)
    requires k < |ss| && ss[k].color.ColorString? && ss[k].color.color != ""
    requires forall j :: k < j < |ss| ==> (ss[j].color.NoColor? ||
               (ss[j].color.ColorString? && (ss[j].color.color == "" || LabelKey(ss[j]) != LabelKey(ss[k]))))
    ensures Get(ApplyAll(scale, ss), LabelKey(ss[k])) == Str(ss[k].color.color)
    decreases |ss|
  {
    var n := |ss|;
    if k < n - 1 {
      ApplyAllString(scale, ss[..n - 1], k);
    }
  }

  /** Without an array at the first series, a non-empty string colour lands
      on the series' label, unless a later series overrides it. */
  lemma StringColorColorsLabel(series: seq<Series>, names: seq<string>, k: nat)
    requires k < |series| && !series[0].color.ColorList?
    requires series[k].color.ColorString? && series[k].color.color != ""
    requires forall j :: k < j < |series| ==> (series[j].color.NoColor? ||
               (series[j].color.ColorString? && (series[j].color.color == "" || LabelKey(series[j]) != LabelKey(series[k]))))
    ensures Get(InitialScale(series, names), LabelKey(series[k])) == Str(series[k].color.color)
  {
    ApplyAllString(map[], series, k);
  }
}
