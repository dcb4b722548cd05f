/** `JSONAdapter` of core/io/JSON.py: input shaped by the three `Normalization` steps into one
    dict, paired with its inferred schema. The JSON text itself is left to `Lib.loadJson` on the
    way in, and on the way out the model returns the value `json.dumps` would serialise. */
module IoJson {
  import opened Wrappers
  import opened Values
  import opened Types
  import opened Foreign
  import Normalize
  import Schema

  /** `normalize_input(data)`: `normalize_json` (a string is decoded), then `normalize_list`,
      then `Normalization.normalize_input`; a NormalizationError from any of them becomes a
      ConversionError. A one-key dict comes back as it is, any other dict `d` as
      `{"root": [d]}`; a list of dicts is `{"root": list}` unless it is one one-key dict, which
      is returned; the empty list, a list holding a non-dict and a scalar are refused. */
  function NormalizeInput(lib: Lib, data: Value): (r: Result<Value>)
    ensures r.Err? ==> r.error == ConversionError
    ensures r.Ok? <==> Normalize.NormalizeJson(lib, data).Ok? &&
                       var d := Normalize.NormalizeJson(lib, data).value;
                       d.PyDict? || (d.PyList? && d.items != [] && AllDicts(d.items))
    ensures r.Ok? ==> r.value.PyDict? && |r.value.entries| == 1
    ensures data.PyDict? && |data.entries| == 1 ==> r == Ok(data)
    ensures data.PyDict? && |data.entries| != 1 ==> r == Ok(PyDict([("root", PyList([data]))]))
    ensures data.PyList? && |data.items| >= 2 && AllDicts(data.items) ==> r == Ok(PyDict([("root", data)]))
    ensures data.PyList? && data.items == [] ==> r.Err?
  {
    match Normalize.NormalizeJson(lib, data)
    case Err(_) => Err(ConversionError)
    case Ok(decoded) =>
      match Normalize.NormalizeList(decoded)
      case Err(_) => Err(ConversionError)
      case Ok(listData) => Normalize.NormalizeInput(listData).Rewrap(ConversionError)
  }

  /** A normalised input is a one-key dict, which normalises to itself. */
  lemma NormalizeInputIdempotent(lib: Lib, data: Value)
    requires NormalizeInput(lib, data).Ok?
    ensures NormalizeInput(lib, NormalizeInput(lib, data).value) == NormalizeInput(lib, data)
  {
  }

  /** What `json.dumps` accepts: None, booleans, numbers, strings, and lists and dicts of
      them. Decimals, dates, datetimes and other objects raise TypeError. */
  predicate Serializable(v: Value)
    decreases Nesting(v)
  {
    match v
    case PyList(items) => forall i :: 0 <= i < |items| ==> Serializable(items[i])
    case PyDict(entries) => forall i :: 0 <= i < |entries| ==> Serializable(entries[i].1)
    case PyDecimal(_) => false
    case PyDate(_) => false
    case PyDatetime(_) => false
    case PyObject(_, _, _, _) => false
    case _ => true
  }

  /** `to_json(data)`: the normalised value (standing for its serialisation) with its inferred
      schema; a failure of normalisation, inference or serialisation is a ConversionError. The
      schema is always a struct, since the normalised value is always a dict. */
  function ToJson(lib: Lib, data: Value): (r: Result<(Value, DataType)>)
    ensures r.Err? ==> r.error == ConversionError
    ensures r.Ok? <==> NormalizeInput(lib, data).Ok? &&
                       Schema.InferSchema(lib, NormalizeInput(lib, data).value).Ok? &&
                       Serializable(NormalizeInput(lib, data).value)
    ensures r.Ok? ==> r.value.0 == NormalizeInput(lib, data).value &&
                      r.value.1 == Schema.InferSchema(lib, r.value.0).value && r.value.1.StructType?
  {
    match NormalizeInput(lib, data)
    case Err(_) => Err(ConversionError)
    case Ok(normalized) =>
      match Schema.InferSchema(lib, normalized)
      case Err(_) => Err(ConversionError)
      case Ok(schema) =>
        if Serializable(normalized) then Ok((normalized, schema)) else Err(ConversionError)
  }

  /** `from_json(json_data)`: decode, normalise, infer; text that does not decode (or a value
      that is not text) is a ConversionError, as is every later failure. */
  function FromJson(lib: Lib, json: Value): (r: Result<(Value, DataType)>)
    ensures r.Err? ==> r.error == ConversionError
    ensures r.Ok? <==> json.PyStr? && lib.loadJson(json.s).Some? &&
                       var parsed := lib.loadJson(json.s).value;
                       NormalizeInput(lib, parsed).Ok? &&
                       Schema.InferSchema(lib, NormalizeInput(lib, parsed).value).Ok?
    ensures r.Ok? ==> var normalized := NormalizeInput(lib, lib.loadJson(json.s).value).value;
                      r.value == (normalized, Schema.InferSchema(lib, normalized).value)
  {
    if !json.PyStr? then Err(ConversionError)
    else
      match lib.loadJson(json.s)
      case None => Err(ConversionError)
      case Some(parsed) =>
        match NormalizeInput(lib, parsed)
        case Err(_) => Err(ConversionError)
        case Ok(normalized) =>
          match Schema.InferSchema(lib, normalized)
          case Err(_) => Err(ConversionError)
          case Ok(schema) => Ok((normalized, schema))
  }

  /** `infer_schema(data)`: text is decoded first, then normalised and inferred. */
  function InferJsonSchema(lib: Lib, data: Value): (r: Result<DataType>)
    ensures r.Err? ==> r.error == ConversionError
    ensures !data.PyStr? ==>
              (r.Ok? <==> NormalizeInput(lib, data).Ok? &&
                          Schema.InferSchema(lib, NormalizeInput(lib, data).value).Ok?)
    ensures !data.PyStr? && r.Ok? ==>
              r.value == Schema.InferSchema(lib, NormalizeInput(lib, data).value).value
    ensures r.Ok? ==> r.value.StructType?
  {
    var decoded := if data.PyStr? then
                     (match lib.loadJson(data.s) case Some(x) => Ok(x) case None => Err(ValueError))
                   else Ok(data);
    match decoded
    case Err(_) => Err(ConversionError)
    case Ok(parsed) =>
      match NormalizeInput(lib, parsed)
      case Err(_) => Err(ConversionError)
      case Ok(normalized) => Schema.InferSchema(lib, normalized).Rewrap(ConversionError)
  }

  /** `describe_schema(data)`: the description of the inferred schema. */
  function DescribeJsonSchema(lib: Lib, data: Value): (r: Result<Value>)
    ensures r.Ok? <==> InferJsonSchema(lib, data).Ok?
    ensures r.Ok? ==> r.value == Schema.DescribeSchema(InferJsonSchema(lib, data).value)
    ensures r.Err? ==> r.error == ConversionError
  {
    match InferJsonSchema(lib, data)
    case Err(_) => Err(ConversionError)
    case Ok(schema) => Ok(Schema.DescribeSchema(schema))
  }

  /** Reading back what `to_json` wrote: whenever the text decodes to the serialised value,
      `from_json` returns exactly what `to_json` returned, value and schema. */
  lemma ToJsonFromJson(lib: Lib, data: Value, text: string)
    requires ToJson(lib, data).Ok?
    requires lib.loadJson(text) == Some(ToJson(lib, data).value.0)
    ensures FromJson(lib, PyStr(text)) == ToJson(lib, data)
  {
    NormalizeInputIdempotent(lib, data);
  }

  /** `from_json` and `infer_schema` agree on text: the schema `from_json` returns is the one
      `infer_schema` computes. */
  lemma FromJsonAgreesWithInfer(lib: Lib, text: string)
    requires FromJson(lib, PyStr(text)).Ok?
    ensures InferJsonSchema(lib, PyStr(text)) == Ok(FromJson(lib, PyStr(text)).value.1)
  {
  }
}
