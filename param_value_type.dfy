/** Parameter value types: a value mapping with a normalised default, a unit
    and CLAP flags; the stepped variant carries one label per step, and the
    boolean one is stepped over "Off" and "On". */
module ValueTypes {
  import opened Libm
  import opened Numeric
  import opened Clap
  import opened Mappings

  datatype ValueType =
    | Plain(mapping: ValueMapping, default: real, unit: string, flags: bv32)
    | Stepped(mapping: ValueMapping, default: real, unit: string, flags: bv32, values: seq<string>)

  /** static_cast<double>(size_t(0) - 1): 2^64 - 1 rounded to the nearest double. */
  const WrappedSizeMax: real := 18446744073709551616.0

  /** The `ParamValueType` constructor: the default is stored normalised
      through the mapping, so it lies in [0, 1]. */
  function NewValueType(min: real, max: real, defaultVal: real, unit: string, mapping: MappingType, m: Math): (r: ValueType)
    ensures r.Plain? && r.mapping == ValueMapping(mapping, min, max)
    ensures r.default == Normalize(r.mapping, defaultVal, m)
    ensures 0.0 <= r.default <= 1.0
    ensures max <= min ==> r.default == 0.0
    ensures r.flags == ParamIsAutomatable && r.unit == unit
  {
    var vm := ValueMapping(mapping, min, max);
    Plain(vm, Normalize(vm, defaultVal, m), unit, ParamIsAutomatable)
  }

  /** The upper end of a stepped range: the last index, or the wrapped
      unsigned value when there are no labels. */
  function LastStep(n: nat): (r: real)
    ensures n > 0 ==> r == (n - 1) as real
    ensures r >= 0.0
  {
    if n == 0 then WrappedSizeMax else (n - 1) as real
  }

  /** The `SteppedValueType` constructor: a linear mapping over [0, n - 1],
      the default normalised through it, and the STEPPED flag added. */
  function NewStepped(values: seq<string>, defaultVal: real, m: Math): (r: ValueType)
    ensures r.Stepped? && r.values == values && r.unit == ""
    ensures r.mapping == ValueMapping(Linear, 0.0, LastStep(|values|))
    ensures r.flags == ParamIsAutomatable | ParamIsStepped
    ensures 0.0 <= r.default <= 1.0
    ensures |values| == 1 ==> r.default == 0.0
  {
    var base := NewValueType(0.0, LastStep(|values|), defaultVal, "", Linear, m);
    Stepped(base.mapping, base.default, base.unit, ParamIsAutomatable | ParamIsStepped, values)
  }

  /** The `BooleanValueType` constructor. */
  function NewBoolean(defaultVal: bool, m: Math): (r: ValueType)
    ensures r.Stepped? && r.values == ["Off", "On"]
  {
    NewStepped(["Off", "On"], if defaultVal then 1.0 else 0.0, m)
  }

  /** A boolean type spans [0, 1] and stores its default as 0 or 1. */
  lemma BooleanShape(b: bool, m: Math)
    ensures NewBoolean(b, m).mapping == ValueMapping(Linear, 0.0, 1.0)
    ensures NewBoolean(b, m).default == (if b then 1.0 else 0.0)
    ensures NewBoolean(b, m).flags & ParamIsStepped != 0
  {
    var r := NewBoolean(b, m);
    assert LastStep(2) == 1.0;
    DefaultIsUnitClamp(if b then 1.0 else 0.0, m);
  }

  /** `denormalizedValue` and `normalizedValue`: delegated to the mapping. */
  function DenormalizedValue(vt: ValueType, value: real, m: Math): (r: real)
    ensures vt.mapping.mappingType == Linear && vt.mapping.min <= vt.mapping.max ==>
      vt.mapping.min <= r <= vt.mapping.max
    ensures vt.mapping.mappingType == Logarithmic && vt.mapping.min > 0.0 && vt.mapping.max > 0.0 ==> r > 0.0
  {
    Denormalize(vt.mapping, value, m)
  }

  function NormalizedValue(vt: ValueType, value: real, m: Math): (r: real)
    ensures 0.0 <= r <= 1.0
  {
    Normalize(vt.mapping, value, m)
  }

  /** On a stepped type with at least one label, every index survives the
      trip to the normalised scale and back, and every normalised value
      denormalises into [0, n - 1]. */
  lemma SteppedIndexRoundTrip(values: seq<string>, defaultVal: real, i: nat, t: real, m: Math)
    requires |values| >= 1 && i < |values|
    ensures DenormalizedValue(NewStepped(values, defaultVal, m), NormalizedValue(NewStepped(values, defaultVal, m), i as real, m), m) == i as real
    ensures 0.0 <= DenormalizedValue(NewStepped(values, defaultVal, m), t, m) <= (|values| - 1) as real
  {
    StepRoundTrip(NewStepped(values, defaultVal, m), |values|, i, t, m);
  }

  /** The same, for any type whose mapping is linear over [0, n - 1]. */
  lemma StepRoundTrip(vt: ValueType, n: nat, i: nat, t: real, m: Math)
    requires vt.mapping == ValueMapping(Linear, 0.0, LastStep(n)) && i < n
    ensures DenormalizedValue(vt, NormalizedValue(vt, i as real, m), m) == i as real
    ensures 0.0 <= DenormalizedValue(vt, t, m) <= (n - 1) as real
  {
    if n == 1 {
      OneStep(vt, n, i, t, m);
    } else {
      SeveralSteps(vt, n, i, t, m);
    }
  }

  /** A single label spans [0, 0], so everything denormalises to index 0. */
  lemma OneStep(vt: ValueType, n: nat, i: nat, t: real, m: Math)
    requires vt.mapping == ValueMapping(Linear, 0.0, LastStep(n)) && i < n && n == 1
    ensures DenormalizedValue(vt, NormalizedValue(vt, i as real, m), m) == i as real
    ensures 0.0 <= DenormalizedValue(vt, t, m) <= (n - 1) as real
  {
    assert LastStep(n) == 0.0 && i as real == 0.0;
    var u := NormalizedValue(vt, i as real, m);
    SinglePoint(vt, u, m);
    SinglePoint(vt, t, m);
  }

  /** A type whose mapping is linear over [0, 0] denormalises everything to 0. */
  lemma SinglePoint(vt: ValueType, t: real, m: Math)
    requires vt.mapping == ValueMapping(Linear, 0.0, 0.0)
    ensures DenormalizedValue(vt, t, m) == 0.0
  {
  }

  /** Two or more labels span [0, n - 1] with n - 1 > 0, where the linear round trips hold. */
  lemma SeveralSteps(vt: ValueType, n: nat, i: nat, t: real, m: Math)
    requires vt.mapping == ValueMapping(Linear, 0.0, LastStep(n)) && i < n && n >= 2
    ensures DenormalizedValue(vt, NormalizedValue(vt, i as real, m), m) == i as real
    ensures 0.0 <= DenormalizedValue(vt, t, m) <= (n - 1) as real
  {
    LinearRoundTrips(vt.mapping, t, i as real, m);
  }

  /** Truncation of the displayed value to a label index (static_cast<size_t>),
      defined for values the cast can represent. */
  function StepIndex(value: real): (r: nat)
    requires -1.0 < value < WrappedSizeMax
    ensures r as real <= Max(value, 0.0) < r as real + 1.0
  {
    if value < 0.0 then 0 else Trunc(value)
  }

  /** `SteppedValueType::toText`: the label at the truncated index, or
      "INVALID INDEX" past the end. */
  function ToText(vt: ValueType, value: real): (r: string)
    requires vt.Stepped? && -1.0 < value < WrappedSizeMax
    ensures StepIndex(value) >= |vt.values| ==> r == "INVALID INDEX"
    ensures StepIndex(value) < |vt.values| ==> r == vt.values[StepIndex(value)]
  {
    var index := StepIndex(value);
    if index >= |vt.values| then "INVALID INDEX" else vt.values[index]
  }

  /** The position of the first label equal to `text`, if any. */
  function FirstIndex(values: seq<string>, text: string): (r: Option<nat>)
    ensures r.None? <==> text !in values
    ensures r.Some? ==> r.value < |values| && values[r.value] == text
    ensures r.Some? ==> forall j :: 0 <= j < r.value ==> values[j] != text
  {
    if |values| == 0 then None
    else if values[0] == text then Some(0)
    else match FirstIndex(values[1..], text)
      case None => None
      case Some(k) => Some(k + 1)
  }

  datatype Option<T> = None | Some(value: T)

  /** `SteppedValueType::toValue`: the index of the first matching label, or 0. */
  function ToValue(vt: ValueType, text: string): (r: real)
    requires vt.Stepped?
    ensures text !in vt.values ==> r == 0.0
    ensures text in vt.values ==> 0.0 <= r < |vt.values| as real && vt.values[r.Floor] == text
    ensures text in vt.values ==> forall j :: 0 <= j < r.Floor ==> vt.values[j] != text
  {
    match FirstIndex(vt.values, text)
    case None => 0.0
    case Some(k) => k as real
  }

  /** Labels that are pairwise distinct. */
  predicate Distinct(values: seq<string>)
  {
    forall i, j :: 0 <= i < j < |values| ==> values[i] != values[j]
  }

  /** With distinct labels, reading the label of an index back gives the index. */
  lemma TextValueRoundTrip(vt: ValueType, i: nat)
    requires vt.Stepped? && Distinct(vt.values) && i < |vt.values| && (i as real) < WrappedSizeMax
    ensures ToValue(vt, ToText(vt, i as real)) == i as real
  {
    var text := vt.values[i];
    assert StepIndex(i as real) == i;
    var k := FirstIndex(vt.values, text);
    assert k.Some?;
  }

  /** Without the distinctness, the earliest duplicate wins. */
  lemma DuplicateLabelsReadFirst()
    ensures ToValue(Stepped(DefaultMapping, 0.0, "", 0, ["A", "A"]), ToText(Stepped(DefaultMapping, 0.0, "", 0, ["A", "A"]), 1.0)) == 0.0
  {
    assert StepIndex(1.0) == 1;
  }
}
