/** `ConversionMap` (core/DataTypes/Map.py): reading a value back into Python under a schema
    (`to_python`) and writing it out as XML text (`to_xml`). */
module ConversionMap {
  import opened Wrappers
  import opened Text
  import opened Values
  import opened Types
  import opened Foreign
  import Schema
  import Cast

  /** `to_python(value, schema)`: the first `isinstance` test that matches picks the conversion;
      a boolean is true exactly when the lower-cased text is `"true"`, and every other schema
      hands the value back. `value.lower()` on a value that is not a string raises
      AttributeError. */
  function ToPython(lib: Lib, v: Value, schema: DataType): Result<Value>
  {
    if IsInstance(schema, CInteger) then
      match lib.toInt(v)
      case Ok(i) => Ok(PyInt(i))
      case Err(e) => Err(e)
    else if IsInstance(schema, CFloat) then
      match lib.toFloat(v)
      case Ok(f) => Ok(PyFloat(f))
      case Err(e) => Err(e)
    else if IsInstance(schema, CDecimal) then
      match lib.toDecimal(v)
      case Ok(d) => Ok(PyDecimal(d))
      case Err(e) => Err(e)
    else if IsInstance(schema, CDatetime) then
      match Schema.ParseDatetime(lib, v)
      case Ok(t) => Ok(PyDatetime(t))
      case Err(e) => Err(e)
    else if IsInstance(schema, CDate) then
      match Schema.ParseDate(lib, v)
      case Ok(d) => Ok(PyDate(d))
      case Err(e) => Err(e)
    else if IsInstance(schema, CBoolean) then
      if v.PyStr? then Ok(PyBool(Lower(v.s) == "true")) else Err(AttributeError)
    else Ok(v)
  }

  /** `value.strftime("%Y-%m-%d %H:%M:%S")`: the microseconds are not written. */
  function Strftime(t: Datetime): string
  {
    DateIso(t.date) + " " + ClockText(t)
  }

  /** `to_xml(value, schema)`: a datetime under a datetime schema in the format above, a
      boolean schema as `"true"`/`"false"` by truth value, everything else as `str(value)`. */
  function ToXml(v: Value, schema: DataType): string
  {
    if IsInstance(schema, CDatetime) then
      if v.PyDatetime? then Strftime(v.datetime) else Str(v)
    else if IsInstance(schema, CInteger) || IsInstance(schema, CFloat) then Str(v)
    else if IsInstance(schema, CBoolean) then
      if Truthy(v) then "true" else "false"
    else Str(v)
  }

  /** The schemas `to_python` has a rule for. */
  predicate Handled(schema: DataType)
  {
    schema.IntegerType? || schema.FloatType? || schema.DecimalType? || schema.DatetimeType? ||
    schema.DateType? || schema.BooleanType?
  }

  /** Under StringType and every schema without a rule (lists, structs, Time, Duration, the
      nulls, the abstract bases) the value comes back unchanged. */
  lemma ToPythonUnhandled(lib: Lib, v: Value, schema: DataType)
    requires !Handled(schema)
    ensures ToPython(lib, v, schema) == Ok(v)
  {
    LeafInstance(schema, CInteger);
    LeafInstance(schema, CFloat);
    LeafInstance(schema, CDecimal);
    LeafInstance(schema, CDatetime);
    LeafInstance(schema, CDate);
    LeafInstance(schema, CBoolean);
  }

  /** The numeric schemas call `int`, `float` and `Decimal` on the value: it converts exactly
      when the constructor accepts it, and the constructor's error escapes unchanged. */
  lemma ToPythonNumeric(lib: Lib, v: Value)
    ensures ToPython(lib, v, IntegerType).Ok? <==> lib.toInt(v).Ok?
    ensures lib.toInt(v).Ok? ==> ToPython(lib, v, IntegerType) == Ok(PyInt(lib.toInt(v).value))
    ensures lib.toInt(v).Err? ==> ToPython(lib, v, IntegerType) == Err(lib.toInt(v).error)
    ensures ToPython(lib, v, FloatType).Ok? <==> lib.toFloat(v).Ok?
    ensures lib.toFloat(v).Ok? ==> ToPython(lib, v, FloatType) == Ok(PyFloat(lib.toFloat(v).value))
    ensures lib.toFloat(v).Err? ==> ToPython(lib, v, FloatType) == Err(lib.toFloat(v).error)
    ensures ToPython(lib, v, DecimalType).Ok? <==> lib.toDecimal(v).Ok?
    ensures lib.toDecimal(v).Ok? ==> ToPython(lib, v, DecimalType) == Ok(PyDecimal(lib.toDecimal(v).value))
    ensures lib.toDecimal(v).Err? ==> ToPython(lib, v, DecimalType) == Err(lib.toDecimal(v).error)
  {
  }

  /** An integer written under IntegerType is read back as the same integer, for an `int`
      that reads decimal digits. */
  lemma IntegerRoundTrip(lib: Lib, i: int)
    requires lib.toInt(PyStr(Str(PyInt(i)))) == Ok(i)
    ensures ToXml(PyInt(i), IntegerType) == Str(PyInt(i))
    ensures ToPython(lib, PyStr(ToXml(PyInt(i), IntegerType)), IntegerType) == Ok(PyInt(i))
  {
  }

  /** Under BooleanType a string reads as true exactly when it is `"true"` in any case, and any
      other value raises AttributeError. */
  lemma ToPythonBoolean(lib: Lib, v: Value)
    ensures v.PyStr? ==> ToPython(lib, v, BooleanType) == Ok(PyBool(Lower(v.s) == "true"))
    ensures !v.PyStr? ==> ToPython(lib, v, BooleanType) == Err(AttributeError)
    ensures ToPython(lib, PyStr("TRUE"), BooleanType) == Ok(PyBool(true))
  {
    assert Lower("TRUE") == "true";
  }

  /** `to_python` and `cast_value` read booleans differently: `"1"` is false for the first and
      true for the second. */
  lemma BooleanReadersDisagree(lib: Lib)
    ensures ToPython(lib, PyStr("1"), BooleanType) == Ok(PyBool(false))
    ensures Cast.CastValue(lib, PyStr("1"), BooleanType) == Ok(PyBool(true))
  {
    assert Lower("1") == "1";
  }

  /** The datetime and date rules are the schema helpers' parsers: a string matching neither
      format raises ConversionError. */
  lemma ToPythonTemporal(lib: Lib, s: string)
    ensures !Schema.IsDatetimeText(lib, s) ==> ToPython(lib, PyStr(s), DatetimeType) == Err(ConversionError)
    ensures lib.parseYmd(s).None? ==> ToPython(lib, PyStr(s), DateType) == Err(ConversionError)
    ensures lib.parseYmd(s).Some? ==> ToPython(lib, PyStr(s), DateType) == Ok(PyDate(lib.parseYmd(s).value))
  {
  }

  /** A boolean schema writes the truth value and reads it back. */
  lemma BooleanRoundTrip(lib: Lib, v: Value)
    ensures ToXml(v, BooleanType) == (if Truthy(v) then "true" else "false")
    ensures ToPython(lib, PyStr(ToXml(v, BooleanType)), BooleanType) == Ok(PyBool(Truthy(v)))
  {
    assert Lower("true") == "true";
    assert Lower("false") == "false";
  }

  /** A string under StringType is written as itself and read back unchanged. */
  lemma StringRoundTrip(lib: Lib, s: string)
    ensures ToXml(PyStr(s), StringType) == s
    ensures ToPython(lib, PyStr(ToXml(PyStr(s), StringType)), StringType) == Ok(PyStr(s))
  {
  }

  /** A datetime is written without its microseconds, so, for a parser that reads the format
      back, the round trip returns the datetime with the microseconds cleared. */
  lemma DatetimeRoundTrip(lib: Lib, t: Datetime)
    requires lib.parseYmdHms(Strftime(t)) == Some(t.(micro := 0))
    ensures ToXml(PyDatetime(t), DatetimeType) == Strftime(t)
    ensures ToPython(lib, PyStr(ToXml(PyDatetime(t), DatetimeType)), DatetimeType) ==
            Ok(PyDatetime(t.(micro := 0)))
  {
  }

  /** Other values under a datetime schema, and None under a null schema, are written with
      `str`, so None becomes `"None"`. */
  lemma ToXmlFallbacks(d: Date)
    ensures ToXml(PyDate(d), DatetimeType) == DateIso(d)
    ensures ToXml(PyNone, NestedNullType) == "None"
    ensures ToXml(PyNone, NumericNullType) == "None"
  {
  }
}
