/** Parameter helpers of the engine: validation of a parameter record, unit
    conversion, and the literal default and example parameter sets.

    A parameter record is a dictionary whose iteration order is its insertion
    order; it is modelled as a sequence of (key, value) pairs in that order. A
    value is a number or a text. Converting a text to a number is the host
    language's float parser, which is not modelled: it is the parameter `parse`,
    giving `None` where the parser raises its value error. */
module Parameters {
  import opened Numeric

  datatype Value = Number(x: real) | Text(s: string)

  type Params = seq<(string, Value)>

  /** Keys whose values are never checked. */
  const SkippedKeys: set<string> := {"name", "description", "date", "unit"}
  /** Keys whose values may be negative. */
  const SignedKeys: set<string> := {"load_eccentricity_x", "load_eccentricity_y"}

  /** Why a record was rejected, naming the offending key. */
  datatype ParamError = MissingField(key: string) | NegativeValue(key: string) | NotNumeric(key: string)

  datatype Validation = Valid | Invalid(error: ParamError)

  /** The message the engine reports for each kind of rejection. */
  function Message(e: ParamError): string
  {
    match e
    case MissingField(k) => "缺少必要参数: " + k
    case NegativeValue(k) => "参数 " + k + " 不能为负值"
    case NotNumeric(k) => "参数 " + k + " 不是有效的数值"
  }

  /** The (is valid, message) pair the engine returns. */
  function AsPair(v: Validation): (bool, string)
  {
    match v
    case Valid => (true, "")
    case Invalid(e) => (false, Message(e))
  }

  function Keys(params: Params): (ks: seq<string>)
    ensures |ks| == |params| && forall i :: 0 <= i < |params| ==> ks[i] == params[i].0
  {
    if params == [] then [] else [params[0].0] + Keys(params[1..])
  }

  /** The value as a number, if it is one or its text parses as one. */
  function ToNumber(v: Value, parse: string -> Option<real>): Option<real>
  {
    match v
    case Number(x) => Some(x)
    case Text(s) => parse(s)
  }

  /** The check of one entry: skipped keys pass; otherwise the value must be a
      number, and non-negative unless the key is an eccentricity. */
  function CheckEntry(key: string, v: Value, parse: string -> Option<real>): (e: Option<ParamError>)
    ensures key in SkippedKeys ==> e == None
    ensures e == None <==>
      key in SkippedKeys
      || (ToNumber(v, parse).Some? && (0.0 <= ToNumber(v, parse).value || key in SignedKeys))
    ensures e == Some(NotNumeric(key)) <==> key !in SkippedKeys && ToNumber(v, parse).None?
    ensures e.Some? ==> e == Some(NotNumeric(key)) || e == Some(NegativeValue(key))
  {
    if key in SkippedKeys then None
    else
      match ToNumber(v, parse)
      case None => Some(NotNumeric(key))
      case Some(val) =>
        if val < 0.0 && key !in SignedKeys then Some(NegativeValue(key)) else None
  }

  /** The first required field, in the order given, that is not among `keys`. */
  function FirstMissing(keys: seq<string>, required: seq<string>): Option<string>
  {
    if required == [] then None
    else if required[0] !in keys then Some(required[0])
    else FirstMissing(keys, required[1..])
  }

  /** The rejection of the first entry, in record order, that fails its check. */
  function FirstInvalid(params: Params, parse: string -> Option<real>): Option<ParamError>
  {
    if params == [] then None
    else
      match CheckEntry(params[0].0, params[0].1, parse)
      case Some(e) => Some(e)
      case None => FirstInvalid(params[1..], parse)
  }

  /** The specification of the validator: presence of the required fields is
      checked first, then the entries one by one. */
  function Validate(params: Params, required: seq<string>, parse: string -> Option<real>): Validation
  {
    match FirstMissing(Keys(params), required)
    case Some(f) => Invalid(MissingField(f))
    case None =>
      match FirstInvalid(params, parse)
      case Some(e) => Invalid(e)
      case None => Valid
  }

  /** The validator as the engine runs it: two loops that stop at the first
      failure. */
  method ValidateParameters(params: Params, required: seq<string>, parse: string -> Option<real>)
    returns (ok: bool, message: string)
    ensures (ok, message) == AsPair(Validate(params, required, parse))
  {
    var keys := Keys(params);
    for i := 0 to |required|
      invariant FirstMissing(keys, required) == FirstMissing(keys, required[i..])
    {
      assert required[i..][1..] == required[i + 1..];
      if required[i] !in keys {
        return false, Message(MissingField(required[i]));
      }
    }
    for i := 0 to |params|
      invariant FirstMissing(keys, required) == None
      invariant FirstInvalid(params, parse) == FirstInvalid(params[i..], parse)
    {
      assert params[i..][1..] == params[i + 1..];
      var (key, value) := params[i];
      if key !in SkippedKeys {
        match ToNumber(value, parse)
        case None =>
          return false, Message(NotNumeric(key));
        case Some(val) =>
          if val < 0.0 && key !in SignedKeys {
            return false, Message(NegativeValue(key));
          }
      }
    }
    return true, "";
  }

  lemma {:induction false} FirstMissingIsFirst(keys: seq<string>, required: seq<string>, j: nat)
    requires j < |required| && required[j] !in keys
    requires forall k :: 0 <= k < j ==> required[k] in keys
    ensures FirstMissing(keys, required) == Some(required[j])
  {
    if j > 0 {
      FirstMissingIsFirst(keys, required[1..], j - 1);
    }
  }

  lemma {:induction false} FirstMissingNone(keys: seq<string>, required: seq<string>)
    ensures FirstMissing(keys, required) == None <==>
      forall k :: 0 <= k < |required| ==> required[k] in keys
  {
    if required != [] {
      FirstMissingNone(keys, required[1..]);
      assert forall k :: 1 <= k < |required| ==> required[k] == required[1..][k - 1];
    }
  }

  lemma {:induction false} FirstInvalidIsFirst(params: Params, parse: string -> Option<real>, j: nat)
    requires j < |params| && CheckEntry(params[j].0, params[j].1, parse).Some?
    requires forall k :: 0 <= k < j ==> CheckEntry(params[k].0, params[k].1, parse) == None
    ensures FirstInvalid(params, parse) == CheckEntry(params[j].0, params[j].1, parse)
  {
    if j > 0 {
      FirstInvalidIsFirst(params[1..], parse, j - 1);
    }
  }

  lemma {:induction false} FirstInvalidNone(params: Params, parse: string -> Option<real>)
    ensures FirstInvalid(params, parse) == None <==>
      forall k :: 0 <= k < |params| ==> CheckEntry(params[k].0, params[k].1, parse) == None
  {
    if params != [] {
      FirstInvalidNone(params[1..], parse);
      assert forall k :: 1 <= k < |params| ==> params[k] == params[1..][k - 1];
    }
  }

  /** A missing required field is reported first, and it is the earliest one in
      the order of the required list; the values in the record play no part. */
  lemma MissingFieldReportedFirst(params: Params, required: seq<string>, parse: string -> Option<real>, j: nat)
    requires j < |required| && required[j] !in Keys(params)
    requires forall k :: 0 <= k < j ==> required[k] in Keys(params)
    ensures Validate(params, required, parse) == Invalid(MissingField(required[j]))
    ensures AsPair(Validate(params, required, parse)) == (false, "缺少必要参数: " + required[j])
  {
    FirstMissingIsFirst(Keys(params), required, j);
  }

  /** When every required field is present, the first entry in record order that
      fails its check decides the rejection, which names that entry's key: not a
      number, or negative outside the eccentricity keys. */
  lemma FirstFailingEntryReported(params: Params, required: seq<string>, parse: string -> Option<real>, j: nat)
    requires forall k :: 0 <= k < |required| ==> required[k] in Keys(params)
    requires j < |params| && CheckEntry(params[j].0, params[j].1, parse).Some?
    requires forall k :: 0 <= k < j ==> CheckEntry(params[k].0, params[k].1, parse) == None
    ensures var key := params[j].0;
      var v := ToNumber(params[j].1, parse);
      && key !in SkippedKeys
      && (v.None? ==> Validate(params, required, parse) == Invalid(NotNumeric(key)))
      && (v.Some? ==> v.value < 0.0 && key !in SignedKeys
                      && Validate(params, required, parse) == Invalid(NegativeValue(key)))
  {
    FirstMissingNone(Keys(params), required);
    FirstInvalidIsFirst(params, parse, j);
  }

  /** The record is accepted exactly when every required field is present and
      every entry passes its check. */
  lemma ValidIff(params: Params, required: seq<string>, parse: string -> Option<real>)
    ensures Validate(params, required, parse) == Valid <==>
      && (forall k :: 0 <= k < |required| ==> required[k] in Keys(params))
      && (forall k :: 0 <= k < |params| ==> CheckEntry(params[k].0, params[k].1, parse) == None)
  {
    FirstMissingNone(Keys(params), required);
    FirstInvalidNone(params, parse);
  }

  lemma {:induction false} FirstInvalidIgnoresSkipped(params: Params, parse: string -> Option<real>, i: nat, v: Value)
    requires i < |params| && params[i].0 in SkippedKeys
    ensures FirstInvalid(params[i := (params[i].0, v)], parse) == FirstInvalid(params, parse)
  {
    var p' := params[i := (params[i].0, v)];
    if i > 0 {
      assert p'[1..] == params[1..][i - 1 := (params[i].0, v)];
      FirstInvalidIgnoresSkipped(params[1..], parse, i - 1, v);
    }
  }

  lemma {:induction false} KeysIgnoreValues(params: Params, i: nat, v: Value)
    requires i < |params|
    ensures Keys(params[i := (params[i].0, v)]) == Keys(params)
  {
    var p' := params[i := (params[i].0, v)];
    if i > 0 {
      assert p'[1..] == params[1..][i - 1 := (params[i].0, v)];
      KeysIgnoreValues(params[1..], i - 1, v);
    }
  }

  /** The values of `name`, `description`, `date` and `unit` are never looked at:
      replacing one of them by anything leaves the outcome unchanged. */
  lemma SkippedKeysNeverChecked(params: Params, required: seq<string>, parse: string -> Option<real>, i: nat, v: Value)
    requires i < |params| && params[i].0 in SkippedKeys
    ensures Validate(params[i := (params[i].0, v)], required, parse) == Validate(params, required, parse)
  {
    KeysIgnoreValues(params, i, v);
    FirstInvalidIgnoresSkipped(params, parse, i, v);
  }

  /** A record whose texts all sit under skipped keys and whose numbers are all
      non-negative. */
  ghost predicate WellTyped(params: Params)
  {
    forall k :: 0 <= k < |params| ==>
      match params[k].1
      case Text(_) => params[k].0 in SkippedKeys
      case Number(x) => 0.0 <= x
  }

  /** Such a record passes validation for any required list it covers, whatever
      the text parser does. */
  lemma WellTypedIsValid(params: Params, required: seq<string>, parse: string -> Option<real>)
    requires WellTyped(params)
    requires forall k :: 0 <= k < |required| ==> required[k] in Keys(params)
    ensures Validate(params, required, parse) == Valid
  {
    ValidIff(params, required, parse);
  }

  // ---------------------------------------------------------------------------
  // Literal parameter sets

  /** The sixteen fields the analysis reads from a record, in the order the
      literal records list them. */
  const EngineFields: seq<string> := [
    "length", "width", "height", "buried_depth",
    "concrete_strength", "elastic_modulus", "soil_bearing_capacity", "soil_coefficient",
    "static_load", "dynamic_load", "frequency", "load_eccentricity_x", "load_eccentricity_y",
    "friction_coefficient", "damping_ratio", "equipment_mass"]

  predicate AllNonNegative(xs: seq<real>)
  {
    forall i :: 0 <= i < |xs| ==> 0.0 <= xs[i]
  }

  /** The engine fields, in order, each paired with its number. */
  function EngineEntries(values: seq<real>): (p: Params)
    requires |values| == |EngineFields|
    ensures Keys(p) == EngineFields
    ensures forall k :: 0 <= k < |p| ==> p[k].1 == Number(values[k])
  {
    seq(|values|, k requires 0 <= k < |values| => (EngineFields[k], Number(values[k])))
  }

  /** A well-typed header followed by non-negative engine entries is a
      well-typed record listing the header's keys and then the engine fields. */
  lemma HeaderThenEntries(header: Params, values: seq<real>)
    requires |values| == |EngineFields|
    requires WellTyped(header) && AllNonNegative(values)
    ensures Keys(header + EngineEntries(values)) == Keys(header) + EngineFields
    ensures WellTyped(header + EngineEntries(values))
  {
    var p := header + EngineEntries(values);
    assert forall k :: |header| <= k < |p| ==> p[k] == EngineEntries(values)[k - |header|];
  }

  /** The default record: name, date and description, then every field the
      analysis reads; the date is supplied by the caller (the engine takes it from
      the clock); every text sits under a skipped key and every number is
      non-negative. */
  function DefaultParameters(date: string): (p: Params)
    ensures Keys(p) == ["name", "date", "description"] + EngineFields
    ensures p[1] == ("date", Text(date))
    ensures WellTyped(p)
  {
    var header := [("name", Text("新计算")), ("date", Text(date)), ("description", Text("大块式设备基础计算"))];
    var values := [3.0, 2.0, 1.0, 0.5, 30.0, 30000.0, 200.0, 80000.0,
                   500.0, 50.0, 10.0, 0.0, 0.0, 0.45, 0.05, 20000.0];
    HeaderThenEntries(header, values);
    header + EngineEntries(values)
  }

  /** The first example record: a centrifugal pump foundation. */
  function PumpFoundation(): (p: Params)
    ensures Keys(p) == ["name", "description"] + EngineFields
    ensures WellTyped(p)
  {
    var header := [("name", Text("水泵基础")), ("description", Text("离心泵设备基础示例"))];
    var values := [2.0, 1.2, 0.8, 0.4, 25.0, 28000.0, 180.0, 60000.0,
                   120.0, 15.0, 25.0, 0.1, 0.0, 0.4, 0.05, 5000.0];
    HeaderThenEntries(header, values);
    header + EngineEntries(values)
  }

  /** The second example record: a reciprocating compressor foundation. */
  function CompressorFoundation(): (p: Params)
    ensures Keys(p) == ["name", "description"] + EngineFields
    ensures WellTyped(p)
  {
    var header := [("name", Text("压缩机基础")), ("description", Text("往复式压缩机基础示例"))];
    var values := [4.0, 2.5, 1.5, 0.8, 30.0, 30000.0, 250.0, 90000.0,
                   800.0, 120.0, 8.0, 0.2, 0.1, 0.45, 0.08, 30000.0];
    HeaderThenEntries(header, values);
    header + EngineEntries(values)
  }

  /** The two example records, a pump and a compressor foundation, with the same
      keys and the same typing. */
  function ExampleCases(): (cases: seq<Params>)
    ensures |cases| == 2
    ensures Keys(cases[0]) == ["name", "description"] + EngineFields && WellTyped(cases[0])
    ensures Keys(cases[1]) == ["name", "description"] + EngineFields && WellTyped(cases[1])
  {
    var pump, compressor := PumpFoundation(), CompressorFoundation();
    [pump, compressor]
  }

  lemma {:induction false} CoveredBySuffix(keys: seq<string>, prefix: nat, required: seq<string>)
    requires prefix <= |keys| && keys[prefix..] == required
    ensures forall k :: 0 <= k < |required| ==> required[k] in keys
  {
    forall k | 0 <= k < |required|
      ensures required[k] in keys
    {
      assert keys[prefix + k] == required[k];
    }
  }

  /** The default record passes validation against the fields the analysis
      reads, whatever the text parser does. */
  lemma DefaultParametersAreValid(date: string, parse: string -> Option<real>)
    ensures Validate(DefaultParameters(date), EngineFields, parse) == Valid
  {
    var d := DefaultParameters(date);
    CoveredBySuffix(Keys(d), 3, EngineFields);
    WellTypedIsValid(d, EngineFields, parse);
  }

  /** Both example records pass validation against the fields the analysis
      reads, whatever the text parser does. */
  lemma ExampleCasesAreValid(parse: string -> Option<real>)
    ensures forall i :: 0 <= i < |ExampleCases()| ==> Validate(ExampleCases()[i], EngineFields, parse) == Valid
  {
    var cases := ExampleCases();
    forall i | 0 <= i < |cases|
      ensures Validate(cases[i], EngineFields, parse) == Valid
    {
      assert i == 0 || i == 1;
      var c := cases[i];
      CoveredBySuffix(Keys(c), 2, EngineFields);
      WellTypedIsValid(c, EngineFields, parse);
    }
  }
}
