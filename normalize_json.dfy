/** `NormalizeJSON` (core/io/normalize/NormalizeJSON.py): JSON input as a list of dicts, or
    flattened. */
module NormalizeJson {
  import opened Wrappers
  import opened Values
  import opened Foreign
  import NormalizeUtils
  import NormalizerBase

  /** `normalize(data, flatten, sep, max_level)`. With `flatten` the data goes to
      `flatten_structure` (keys lower-cased, empty parent key) as it is, so a JSON string is a
      ValueError there. Otherwise a string is decoded first, a dict becomes `[dict]` and a list
      of dicts is returned as it is. Every failure, a decoding error included, is rewrapped as
      NormalizationError. */
  function Normalize(lib: Lib, data: Value, flatten: bool, sep: string, maxLevel: Option<int>): (r: Result<Value>)
    ensures r.Err? ==> r.error == NormalizationError
    ensures flatten ==> r == NormalizeUtils.FlattenedStructure(
                               NormalizeUtils.Options(sep, maxLevel, true), data, "").Rewrap(NormalizationError)
    ensures !flatten && !data.PyStr? ==>
              (r.Ok? <==> data.PyDict? || (data.PyList? && AllDicts(data.items)))
    ensures !flatten && data.PyDict? ==> r == Ok(PyList([data]))
    ensures !flatten && data.PyList? && AllDicts(data.items) ==> r == Ok(data)
  {
    if flatten then
      NormalizeUtils.FlattenedStructure(NormalizeUtils.Options(sep, maxLevel, true), data, "").Rewrap(NormalizationError)
    else
      var decoded := if data.PyStr? then
                       (match lib.loadJson(data.s) case Some(x) => Ok(x) case None => Err(ValueError))
                     else Ok(data);
      match decoded
      case Err(_) => Err(NormalizationError)
      case Ok(v) =>
        if v.PyDict? then Ok(PyList([v]))
        else if v.PyList? && AllDicts(v.items) then Ok(v)
        else Err(NormalizationError)
  }

  /** Without flattening, a value that is not a string is shaped exactly as
      `ABCNormalizer.normalize_input` shapes it, up to the kind of error. */
  lemma AgreesWithNormalizerBase(lib: Lib, data: Value, sep: string, maxLevel: Option<int>)
    requires !data.PyStr?
    ensures Normalize(lib, data, false, sep, maxLevel).Ok? <==> NormalizerBase.NormalizeInput(data).Ok?
    ensures Normalize(lib, data, false, sep, maxLevel).Ok? ==>
              Normalize(lib, data, false, sep, maxLevel).value == NormalizerBase.NormalizeInput(data).value
  {
  }

  /** Every success without flattening is a list of dicts, and normalising it again gives it
      back. */
  lemma NormalizeIdempotent(lib: Lib, data: Value, sep: string, maxLevel: Option<int>)
    requires Normalize(lib, data, false, sep, maxLevel).Ok?
    ensures var v := Normalize(lib, data, false, sep, maxLevel).value;
            v.PyList? && AllDicts(v.items) && Normalize(lib, v, false, sep, maxLevel) == Ok(v)
  {
  }

  /** With flattening and the default separator `"_"`, a dict gives its flattened dict with
      lower-cased keys. */
  lemma FlattenedDict(lib: Lib, data: Value, maxLevel: Option<int>)
    requires data.PyDict?
    ensures Normalize(lib, data, true, "_", maxLevel) ==
            Ok(PyDict(NormalizeUtils.Flattened(NormalizeUtils.Options("_", maxLevel, true), data, "")))
  {
  }
}
