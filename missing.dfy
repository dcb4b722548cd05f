/** `MissingHandler` (core/DataTypes/Missing.py): which values count as missing, replacing them
    throughout a nested value, and the null-compatible type of a single value. */
module Missing {
  import opened Wrappers
  import opened Dicts
  import opened Text
  import opened Values
  import opened Types

  /** The strings of `NULL_VALUES` (its other member, None, is matched separately). */
  const NullTokens: set<string> := {"", "NULL", "null", "N/A", "n/a", "-", "--"}

  /** `is_null`: a string is null when its stripped form is a null token; any other value only
      when it is None. */
  predicate IsNull(v: Value)
  {
    if v.PyStr? then Strip(v.s) in NullTokens else v.PyNone?
  }

  /** `fill_nulls`: dicts and lists are rebuilt with their members filled; a null leaf becomes
      the fill value and any other leaf stays. A dict's keys and their order, and a list's
      length, are kept. */
  function FillNulls(v: Value, fill: Value): (r: Value)
    ensures v.PyDict? ==> r.PyDict? && Keys(r.entries) == Keys(v.entries)
    ensures v.PyList? ==> r.PyList? && |r.items| == |v.items|
    ensures !v.PyDict? && !v.PyList? ==> r == if IsNull(v) then fill else v
    decreases v, 1
  {
    match v
    case PyDict(_) => PyDict(FillEntries(v, fill))
    case PyList(_) => PyList(FillItems(v, fill))
    case _ => if IsNull(v) then fill else v
  }

  /** `{k: fill_nulls(v, fill_value) for k, v in data.items()}`. */
  function FillEntries(v: Value, fill: Value): (es: seq<(string, Value)>)
    requires v.PyDict?
    ensures |es| == |v.entries|
    ensures forall i :: 0 <= i < |es| ==> es[i] == (v.entries[i].0, FillNulls(v.entries[i].1, fill))
    decreases v, 0
  {
    seq(|v.entries|, i requires 0 <= i < |v.entries| => (v.entries[i].0, FillNulls(v.entries[i].1, fill)))
  }

  /** `[fill_nulls(v, fill_value) for v in data]`. */
  function FillItems(v: Value, fill: Value): (vs: seq<Value>)
    requires v.PyList?
    ensures |vs| == |v.items|
    ensures forall i :: 0 <= i < |vs| ==> vs[i] == FillNulls(v.items[i], fill)
    decreases v, 0
  {
    seq(|v.items|, i requires 0 <= i < |v.items| => FillNulls(v.items[i], fill))
  }

  /** No leaf anywhere inside is null. */
  predicate NullFree(v: Value)
    decreases v
  {
    match v
    case PyDict(entries) => forall i :: 0 <= i < |entries| ==> NullFree(entries[i].1)
    case PyList(items) => forall i :: 0 <= i < |items| ==> NullFree(items[i])
    case _ => !IsNull(v)
  }

  /** A value without null leaves is left exactly as it is. */
  lemma {:induction false} FillNullFree(v: Value, fill: Value)
    requires NullFree(v)
    ensures FillNulls(v, fill) == v
    decreases v
  {
    match v
    case PyDict(entries) =>
      forall i | 0 <= i < |entries|
        ensures FillEntries(v, fill)[i] == entries[i]
      {
        FillNullFree(entries[i].1, fill);
      }
      assert FillEntries(v, fill) == entries;
    case PyList(items) =>
      forall i | 0 <= i < |items|
        ensures FillItems(v, fill)[i] == items[i]
      {
        FillNullFree(items[i], fill);
      }
      assert FillItems(v, fill) == items;
    case _ =>
  }

  /** With a fill value that has no null leaves, no null leaf survives. */
  lemma {:induction false} FillRemovesNulls(v: Value, fill: Value)
    requires NullFree(fill)
    ensures NullFree(FillNulls(v, fill))
    decreases v
  {
    match v
    case PyDict(entries) =>
      forall i | 0 <= i < |entries|
        ensures NullFree(FillEntries(v, fill)[i].1)
      {
        FillRemovesNulls(entries[i].1, fill);
      }
    case PyList(items) =>
      forall i | 0 <= i < |items|
        ensures NullFree(FillItems(v, fill)[i])
      {
        FillRemovesNulls(items[i], fill);
      }
    case _ =>
  }

  /** Filling twice with a fill value that has no null leaves is filling once. */
  lemma FillIdempotent(v: Value, fill: Value)
    requires NullFree(fill)
    ensures FillNulls(FillNulls(v, fill), fill) == FillNulls(v, fill)
  {
    FillRemovesNulls(v, fill);
    FillNullFree(FillNulls(v, fill), fill);
  }

  /** `detect_null_type`: a null gives NestedNullType, another string StringType, an int or a
      float (a bool is an int) NumericType; anything else raises NormalizationError. */
  function DetectNullType(v: Value): Result<DataType>
  {
    if IsNull(v) then Ok(NestedNullType)
    else if v.PyStr? then Ok(StringType)
    else if IsIntOrFloat(v) then Ok(NumericType)
    else Err(NormalizationError)
  }

  /** The detected type is NestedNullType exactly for the values `is_null` accepts, and the
      detection fails exactly outside strings, None, ints, floats and bools. */
  lemma DetectAgreesWithIsNull(v: Value)
    ensures DetectNullType(v) == Ok(NestedNullType) <==> IsNull(v)
    ensures DetectNullType(v).Ok? <==> v.PyNone? || v.PyStr? || IsIntOrFloat(v)
    ensures DetectNullType(v).Ok? ==> IsNullKind(DetectNullType(v).value) || DetectNullType(v).value in {StringType, NumericType}
  {
  }

  /** The tokens are matched after stripping: whitespace added at either end of a string
      changes nothing about whether it is null (so `" n/a "` is null). */
  lemma PaddingIgnored(left: string, s: string, right: string)
    requires AllSpace(left) && AllSpace(right)
    ensures IsNull(PyStr(left + s + right)) <==> IsNull(PyStr(s))
  {
    StripPadded(left, s, right);
  }

  /** A string of blanks strips to the empty token. */
  lemma BlankIsNull()
    ensures IsNull(PyStr("   "))
  {
    assert Strip("   ") == "" by {
      assert StripLeft("   ") == "";
    }
  }

  /** The tokens are matched exactly: `"Null"` is not null. */
  lemma NonNullExample()
    ensures !IsNull(PyStr("Null"))
  {
    StripFixed("Null");
    NullNotToken();
  }

  lemma NullNotToken()
    ensures "Null" !in NullTokens
  {
    assert "Null"[1] != "NULL"[1] && "Null"[0] != "null"[0];
  }

  /** The number 0 is not null, and a bool is detected as numeric. */
  lemma DetectExamples()
    ensures !IsNull(PyInt(0))
    ensures DetectNullType(PyBool(true)) == Ok(NumericType)
  {
  }
}
