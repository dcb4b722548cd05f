/** `BaseArray` and `AdvancedBaseArray` (core/DataTypes/Base.py): a list of values of one
    declared type, checked element by element when it is built and on every write.
    The check of the plain array, `isinstance(value, dtype.type_cls)`, names an attribute that no
    type class defines, so as written it raises AttributeError on every value other than None
    (`CheckAsWritten`, `PlainHoldsOnlyNone`). The array itself is modelled over the corrected
    check, the parameter `typeCls`. `AdvancedBaseArray` differs only in its check, so an array
    records which of the two classes it belongs to. */
module BaseArrays {
  import opened Wrappers
  import opened Dicts
  import opened Values
  import opened Types
  import opened Foreign
  import Cast

  datatype Kind = Plain | Advanced

  /** `_is_valid_type(value, dtype)`. None is always accepted. The advanced check requires a dict
      for a struct type and checks only the keys present in both, and a list for a list type with
      every item checked against the element type; everything else goes to the plain check. */
  predicate IsValid(kind: Kind, typeCls: (Value, DataType) -> bool, v: Value, dtype: DataType)
    decreases dtype
  {
    if v.PyNone? then true
    else if kind == Advanced && dtype.StructType? then
      v.PyDict? &&
      forall i :: 0 <= i < |dtype.fields| && HasKey(v.entries, dtype.fields[i].0) ==>
        IsValid(kind, typeCls, Get(v.entries, dtype.fields[i].0).value, dtype.fields[i].1)
    else if kind == Advanced && dtype.ListType? then
      v.PyList? && forall i :: 0 <= i < |v.items| ==> IsValid(kind, typeCls, v.items[i], dtype.innerType)
    else typeCls(v, dtype)
  }

  predicate AllValid(kind: Kind, typeCls: (Value, DataType) -> bool, data: seq<Value>, dtype: DataType)
  {
    forall i :: 0 <= i < |data| ==> IsValid(kind, typeCls, data[i], dtype)
  }

  /** `_is_valid_type`, with its loops over the struct's fields and the list's items. */
  method CheckValid(kind: Kind, typeCls: (Value, DataType) -> bool, v: Value, dtype: DataType)
    returns (ok: bool)
    ensures ok == IsValid(kind, typeCls, v, dtype)
    decreases dtype
  {
    if v.PyNone? {
      return true;
    }
    if kind == Advanced && dtype.StructType? {
      if !v.PyDict? {
        return false;
      }
      var i := 0;
      while i < |dtype.fields|
        invariant 0 <= i <= |dtype.fields|
        invariant forall j :: 0 <= j < i && HasKey(v.entries, dtype.fields[j].0) ==>
                    IsValid(kind, typeCls, Get(v.entries, dtype.fields[j].0).value, dtype.fields[j].1)
      {
        var key := dtype.fields[i].0;
        if HasKey(v.entries, key) {
          var sub := CheckValid(kind, typeCls, Get(v.entries, key).value, dtype.fields[i].1);
          if !sub {
            return false;
          }
        }
        i := i + 1;
      }
      return true;
    }
    if kind == Advanced && dtype.ListType? {
      if !v.PyList? {
        return false;
      }
      var i := 0;
      while i < |v.items|
        invariant 0 <= i <= |v.items|
        invariant forall j :: 0 <= j < i ==> IsValid(kind, typeCls, v.items[j], dtype.innerType)
      {
        var sub := CheckValid(kind, typeCls, v.items[i], dtype.innerType);
        if !sub {
          return false;
        }
        i := i + 1;
      }
      return true;
    }
    return typeCls(v, dtype);
  }

  /** `_validate_data`: the loop over the elements; the first invalid one raises DataTypeError. */
  method ValidateData(kind: Kind, typeCls: (Value, DataType) -> bool, data: seq<Value>, dtype: DataType)
    returns (r: Result<seq<Value>>)
    ensures r.Ok? <==> AllValid(kind, typeCls, data, dtype)
    ensures r.Ok? ==> r.value == data
    ensures r.Err? ==> r.error == DataTypeError
  {
    var i := 0;
    while i < |data|
      invariant 0 <= i <= |data|
      invariant forall j :: 0 <= j < i ==> IsValid(kind, typeCls, data[j], dtype)
    {
      var ok := CheckValid(kind, typeCls, data[i], dtype);
      if !ok {
        return Err(DataTypeError);
      }
      i := i + 1;
    }
    return Ok(data);
  }

  // ---------------------------------------------------------------------------------------
  // The check as written

  /** `_is_valid_type` as written: `isinstance(value, dtype.type_cls)` reads an attribute no
      type class has, so a value other than None that reaches the plain check raises
      AttributeError instead of being answered. The advanced override descends first, field by
      field and item by item in order, and the first False or the first exception ends it. */
  function CheckAsWritten(kind: Kind, v: Value, dtype: DataType): (r: Result<bool>)
    ensures r.Err? ==> r.error == AttributeError
    ensures kind == Plain ==> (r.Ok? <==> v.PyNone?)
    ensures r == Ok(false) ==> kind == Advanced && !v.PyNone? && (dtype.StructType? || dtype.ListType?)
    decreases dtype, 1
  {
    if v.PyNone? then Ok(true)
    else if kind == Advanced && dtype.StructType? then
      if v.PyDict? then FieldsAsWritten(v.entries, dtype, 0) else Ok(false)
    else if kind == Advanced && dtype.ListType? then
      if v.PyList? then ItemsAsWritten(v.items, dtype, 0) else Ok(false)
    else Err(AttributeError)
  }

  /** The advanced loop over the struct's fields from position `i`: a field the dict has is
      checked, one it lacks is skipped. */
  function FieldsAsWritten(entries: Dict<string, Value>, dtype: DataType, i: nat): (r: Result<bool>)
    requires dtype.StructType? && i <= |dtype.fields|
    ensures r.Err? ==> r.error == AttributeError
    decreases dtype, 0, |dtype.fields| - i
  {
    if i == |dtype.fields| then Ok(true)
    else if !HasKey(entries, dtype.fields[i].0) then FieldsAsWritten(entries, dtype, i + 1)
    else
      var sub := CheckAsWritten(Advanced, Get(entries, dtype.fields[i].0).value, dtype.fields[i].1);
      if sub.Err? then sub
      else if !sub.value then Ok(false)
      else FieldsAsWritten(entries, dtype, i + 1)
  }

  /** `all(...)` over the list's items from position `i`. */
  function ItemsAsWritten(items: seq<Value>, dtype: DataType, i: nat): (r: Result<bool>)
    requires dtype.ListType? && i <= |items|
    ensures r.Err? ==> r.error == AttributeError
    decreases dtype, 0, |items| - i
  {
    if i == |items| then Ok(true)
    else
      var sub := CheckAsWritten(Advanced, items[i], dtype.innerType);
      if sub.Err? then sub
      else if !sub.value then Ok(false)
      else ItemsAsWritten(items, dtype, i + 1)
  }

  /** `_validate_data` over the check as written: the first item the check rejects raises
      DataTypeError, and the first one it cannot answer raises its AttributeError. */
  function ValidatedAsWritten(kind: Kind, data: seq<Value>, dtype: DataType): (r: Result<seq<Value>>)
    ensures r.Ok? ==> r.value == data
    ensures r.Err? ==> r.error == AttributeError || r.error == DataTypeError
  {
    if data == [] then Ok(data)
    else
      var first := CheckAsWritten(kind, data[0], dtype);
      if first.Err? then Err(first.error)
      else if !first.value then Err(DataTypeError)
      else match ValidatedAsWritten(kind, data[1..], dtype)
        case Ok(_) => Ok(data)
        case Err(e) => Err(e)
  }

  /** Under the check as written a plain array can hold nothing but None: `BaseArray(data, dtype)`
      succeeds exactly when every item is None, and otherwise raises AttributeError, never the
      DataTypeError its loop was written to raise. */
  lemma {:induction false} PlainHoldsOnlyNone(data: seq<Value>, dtype: DataType)
    ensures ValidatedAsWritten(Plain, data, dtype).Ok? <==> forall i :: 0 <= i < |data| ==> data[i].PyNone?
    ensures ValidatedAsWritten(Plain, data, dtype).Err? ==> ValidatedAsWritten(Plain, data, dtype).error == AttributeError
  {
    if data != [] {
      PlainHoldsOnlyNone(data[1..], dtype);
      assert forall i :: 1 <= i < |data| ==> data[i] == data[1..][i - 1];
    }
  }

  /** Where the check as written answers at all, its answer is the validity predicate's, for
      any stand-in `typeCls`: the two differ only where the source raises. */
  lemma {:induction false} AsWrittenAgrees(kind: Kind, typeCls: (Value, DataType) -> bool, v: Value, dtype: DataType)
    requires CheckAsWritten(kind, v, dtype).Ok?
    ensures CheckAsWritten(kind, v, dtype).value == IsValid(kind, typeCls, v, dtype)
    decreases dtype, 1
  {
    if !v.PyNone? && kind == Advanced && dtype.StructType? && v.PyDict? {
      FieldsAgree(typeCls, v.entries, dtype, 0);
    } else if !v.PyNone? && kind == Advanced && dtype.ListType? && v.PyList? {
      ItemsAgree(typeCls, v.items, dtype, 0);
    }
  }

  lemma {:induction false} FieldsAgree(typeCls: (Value, DataType) -> bool, entries: Dict<string, Value>,
                                      dtype: DataType, i: nat)
    requires dtype.StructType? && i <= |dtype.fields|
    requires FieldsAsWritten(entries, dtype, i).Ok?
    ensures FieldsAsWritten(entries, dtype, i).value <==>
              forall j :: i <= j < |dtype.fields| && HasKey(entries, dtype.fields[j].0) ==>
                IsValid(Advanced, typeCls, Get(entries, dtype.fields[j].0).value, dtype.fields[j].1)
    decreases dtype, 0, |dtype.fields| - i
  {
    if i < |dtype.fields| {
      if HasKey(entries, dtype.fields[i].0) {
        var sub := CheckAsWritten(Advanced, Get(entries, dtype.fields[i].0).value, dtype.fields[i].1);
        AsWrittenAgrees(Advanced, typeCls, Get(entries, dtype.fields[i].0).value, dtype.fields[i].1);
        if sub.value {
          FieldsAgree(typeCls, entries, dtype, i + 1);
        }
      } else {
        FieldsAgree(typeCls, entries, dtype, i + 1);
      }
    }
  }

  lemma {:induction false} ItemsAgree(typeCls: (Value, DataType) -> bool, items: seq<Value>, dtype: DataType, i: nat)
    requires dtype.ListType? && i <= |items|
    requires ItemsAsWritten(items, dtype, i).Ok?
    ensures ItemsAsWritten(items, dtype, i).value <==>
              forall j :: i <= j < |items| ==> IsValid(Advanced, typeCls, items[j], dtype.innerType)
    decreases dtype, 0, |items| - i
  {
    if i < |items| {
      AsWrittenAgrees(Advanced, typeCls, items[i], dtype.innerType);
      if CheckAsWritten(Advanced, items[i], dtype.innerType).value {
        ItemsAgree(typeCls, items, dtype, i + 1);
      }
    }
  }

  /** `BaseArray([1], IntegerType())` raises AttributeError as written, while the corrected
      check (here one accepting exactly the ints) builds it. An `AdvancedBaseArray` of `[{}]`
      under an empty struct type is built, but its slice `[:]` is a plain `BaseArray` and raises
      AttributeError. */
  lemma AsWrittenExamples()
    ensures ValidatedAsWritten(Plain, [PyInt(1)], IntegerType) == Err(AttributeError)
    ensures AllValid(Plain, (x: Value, t: DataType) => x.PyInt?, [PyInt(1)], IntegerType)
    ensures ValidatedAsWritten(Advanced, [PyDict([])], StructType([])) == Ok([PyDict([])])
    ensures ValidatedAsWritten(Plain, SliceOf([PyDict([])], None, None), StructType([])) == Err(AttributeError)
  {
    assert SliceOf([PyDict([])], None, None) == [PyDict([])];
  }

  /** The position a Python index denotes: a negative index counts from the end. */
  function PyIndex(index: int, n: nat): int
  {
    if index < 0 then index + n else index
  }

  /** A slice bound: absent means the default, a negative bound counts from the end, and the
      result is clamped to the sequence. */
  function SliceBound(bound: Option<int>, default: nat, n: nat): (b: nat)
    requires default <= n
    ensures b <= n
  {
    match bound
    case None => default
    case Some(x) => if x < 0 then (if x + n < 0 then 0 else x + n) else if x > n then n else x
  }

  /** `data[start:stop]`. */
  function SliceOf(data: seq<Value>, start: Option<int>, stop: Option<int>): (s: seq<Value>)
    ensures var lo, hi := SliceBound(start, 0, |data|), SliceBound(stop, |data|, |data|);
            |s| == (if lo <= hi then hi - lo else 0) &&
            forall k :: 0 <= k < |s| ==> s[k] == data[lo + k]
  {
    var lo, hi := SliceBound(start, 0, |data|), SliceBound(stop, |data|, |data|);
    if lo <= hi then data[lo..hi] else []
  }

  /** `[value if x is None else x for x in data]`. */
  function FilledNone(data: seq<Value>, value: Value): (r: seq<Value>)
    ensures |r| == |data|
    ensures forall i :: 0 <= i < |data| ==> r[i] == if data[i].PyNone? then value else data[i]
  {
    seq(|data|, i requires 0 <= i < |data| => if data[i].PyNone? then value else data[i])
  }

  /** `[func(x) if x is not None else None for x in data]`; the first exception of `func` leaves
      the comprehension. None entries stay None and `func` is not called on them. */
  function Applied(data: seq<Value>, func: Value -> Result<Value>): (r: Result<seq<Value>>)
    ensures r.Ok? ==> |r.value| == |data|
    ensures r.Ok? ==> forall i :: 0 <= i < |data| ==>
              (if data[i].PyNone? then r.value[i] == PyNone else func(data[i]) == Ok(r.value[i]))
    ensures r.Err? ==> exists i :: 0 <= i < |data| && !data[i].PyNone? && func(data[i]) == Err(r.error)
  {
    Sequence(seq(|data|, i requires 0 <= i < |data| => if data[i].PyNone? then Ok(PyNone) else func(data[i])))
  }

  /** `[TypeCast.cast_value(x, target_type) for x in self.data]` under `except ConversionError`:
      a ConversionError becomes DataTypeError, any other error passes through. */
  function Casted(lib: Lib, data: seq<Value>, target: DataType): (r: Result<seq<Value>>)
    ensures r.Err? ==> r.error != ConversionError
    ensures r.Ok? ==> |r.value| == |data|
    ensures r.Ok? ==> forall i :: 0 <= i < |data| ==> Cast.CastValue(lib, data[i], target) == Ok(r.value[i])
    ensures r.Err? ==> exists i :: 0 <= i < |data| && Cast.CastValue(lib, data[i], target).Err?
  {
    var rs := Cast.CastItems(lib, data, target);
    match Sequence(rs)
    case Ok(vs) => Ok(vs)
    case Err(e) => Err(if e == ConversionError then DataTypeError else e)
  }

  class BaseArray {
    var data: seq<Value>
    var dtype: DataType
    const kind: Kind
    const typeCls: (Value, DataType) -> bool

    /** Every stored element passes the array's check. */
    ghost predicate Valid()
      reads this
    {
      AllValid(kind, typeCls, data, dtype)
    }

    constructor Init(data: seq<Value>, dtype: DataType, kind: Kind, typeCls: (Value, DataType) -> bool)
      requires AllValid(kind, typeCls, data, dtype)
      ensures this.data == data && this.dtype == dtype && this.kind == kind && this.typeCls == typeCls
      ensures Valid()
    {
      this.data := data;
      this.dtype := dtype;
      this.kind := kind;
      this.typeCls := typeCls;
    }

    /** `BaseArray(data, dtype)` (or `AdvancedBaseArray(...)`): the elements are validated
        first, and an invalid one raises DataTypeError. */
    static method Create(data: seq<Value>, dtype: DataType, kind: Kind, typeCls: (Value, DataType) -> bool)
      returns (r: Result<BaseArray>)
      ensures r.Ok? <==> AllValid(kind, typeCls, data, dtype)
      ensures r.Err? ==> r.error == DataTypeError
      ensures r.Ok? ==> fresh(r.value) && r.value.data == data && r.value.dtype == dtype &&
                        r.value.kind == kind && r.value.typeCls == typeCls && r.value.Valid()
    {
      var checked := ValidateData(kind, typeCls, data, dtype);
      if checked.Err? {
        return Err(checked.error);
      }
      var a := new BaseArray.Init(checked.value, dtype, kind, typeCls);
      return Ok(a);
    }

    /** `len(array)`. */
    function Length(): (n: nat)
      reads this
      ensures n == |data|
    {
      |data|
    }

    /** `array[index]` for an int index: the stored element, counting negative indexes from the
        end; an index outside the array raises IndexError. */
    function Item(index: int): (r: Result<Value>)
      reads this
      ensures r.Ok? <==> -|data| <= index < |data|
      ensures r.Ok? ==> r.value == data[PyIndex(index, |data|)]
      ensures r.Err? ==> r.error == IndexError
    {
      if -|data| <= index < |data| then Ok(data[PyIndex(index, |data|)]) else Err(IndexError)
    }

    /** `array[start:stop]`: a new plain `BaseArray` of the same type over the slice, validated
        again by the plain check, even when this array is an `AdvancedBaseArray`. Slicing a valid
        plain array therefore always succeeds. */
    method Slice(start: Option<int>, stop: Option<int>) returns (r: Result<BaseArray>)
      ensures r.Ok? <==> AllValid(Plain, typeCls, SliceOf(data, start, stop), dtype)
      ensures r.Err? ==> r.error == DataTypeError
      ensures r.Ok? ==> fresh(r.value) && r.value.data == SliceOf(data, start, stop) &&
                        r.value.dtype == dtype && r.value.kind == Plain && r.value.Valid()
      ensures Valid() && kind == Plain ==> r.Ok?
    {
      r := Create(SliceOf(data, start, stop), dtype, Plain, typeCls);
    }

    /** `array[index] = value`: the value is checked first; an invalid value raises
        DataTypeError and an index outside the array IndexError, both leaving the array as it
        was; otherwise only that position changes. */
    method SetItem(index: int, value: Value) returns (r: Result<()>)
      modifies this
      ensures dtype == old(dtype)
      ensures !IsValid(kind, typeCls, value, dtype) ==> r == Err(DataTypeError) && data == old(data)
      ensures IsValid(kind, typeCls, value, dtype) && !(-|old(data)| <= index < |old(data)|) ==>
                r == Err(IndexError) && data == old(data)
      ensures IsValid(kind, typeCls, value, dtype) && -|old(data)| <= index < |old(data)| ==>
                r == Ok(()) && data == old(data)[PyIndex(index, |old(data)|) := value]
      ensures old(Valid()) ==> Valid()
    {
      var ok := CheckValid(kind, typeCls, value, dtype);
      if !ok {
        return Err(DataTypeError);
      }
      if !(-|data| <= index < |data|) {
        return Err(IndexError);
      }
      data := data[PyIndex(index, |data|) := value];
      return Ok(());
    }

    /** `isna()`: true exactly at the None entries. */
    function IsNa(): (mask: seq<bool>)
      reads this
      ensures |mask| == |data|
      ensures forall i :: 0 <= i < |data| ==> (mask[i] <==> data[i].PyNone?)
    {
      seq(|data|, i requires 0 <= i < |data| reads this => data[i].PyNone?)
    }

    /** `fillna(value)`: an invalid fill value raises DataTypeError and changes nothing;
        otherwise every None entry becomes the value. */
    method FillNa(value: Value) returns (r: Result<()>)
      modifies this
      ensures dtype == old(dtype)
      ensures IsValid(kind, typeCls, value, dtype) ==> r == Ok(()) && data == FilledNone(old(data), value)
      ensures !IsValid(kind, typeCls, value, dtype) ==> r == Err(DataTypeError) && data == old(data)
      ensures old(Valid()) ==> Valid()
    {
      var ok := CheckValid(kind, typeCls, value, dtype);
      if !ok {
        return Err(DataTypeError);
      }
      data := FilledNone(data, value);
      return Ok(());
    }

    /** `apply(func)`: a new plain `BaseArray` of the same type over the mapped values; this
        array is not touched. */
    method Apply(func: Value -> Result<Value>) returns (r: Result<BaseArray>)
      ensures Applied(data, func).Err? ==> r == Err(Applied(data, func).error)
      ensures Applied(data, func).Ok? ==>
                (r.Ok? <==> AllValid(Plain, typeCls, Applied(data, func).value, dtype))
      ensures Applied(data, func).Ok? && r.Err? ==> r.error == DataTypeError
      ensures r.Ok? ==> fresh(r.value) && r.value.data == Applied(data, func).value &&
                        r.value.dtype == dtype && r.value.kind == Plain
    {
      var mapped := Applied(data, func);
      if mapped.Err? {
        return Err(mapped.error);
      }
      r := Create(mapped.value, dtype, Plain, typeCls);
    }

    /** `astype(target_type)`: every element cast with `cast_value`; a ConversionError, from a
        cast or not at all, becomes DataTypeError. The result is a plain `BaseArray` of the target
        type, validated like any other. */
    method AsType(lib: Lib, target: DataType) returns (r: Result<BaseArray>)
      ensures r.Err? ==> r.error != ConversionError
      ensures Casted(lib, data, target).Err? ==> r == Err(Casted(lib, data, target).error)
      ensures Casted(lib, data, target).Ok? ==>
                (r.Ok? <==> AllValid(Plain, typeCls, Casted(lib, data, target).value, target))
      ensures r.Ok? ==> fresh(r.value) && r.value.data == Casted(lib, data, target).value &&
                        r.value.dtype == target && r.value.kind == Plain
    {
      var cast := Casted(lib, data, target);
      if cast.Err? {
        return Err(cast.error);
      }
      r := Create(cast.value, target, Plain, typeCls);
    }
  }

  // ---------------------------------------------------------------------------------------
  // Properties

  /** After `fillna` with a value other than None nothing is missing, the other entries are
      kept, and filling again changes nothing. */
  lemma FillNaLeavesNoNone(data: seq<Value>, value: Value)
    requires !value.PyNone?
    ensures forall i :: 0 <= i < |data| ==> !FilledNone(data, value)[i].PyNone?
    ensures forall i :: 0 <= i < |data| && !data[i].PyNone? ==> FilledNone(data, value)[i] == data[i]
    ensures FilledNone(FilledNone(data, value), value) == FilledNone(data, value)
  {
  }

  /** A slice without bounds is the whole array, and slices never run past it. */
  lemma SliceWhole(data: seq<Value>, start: Option<int>, stop: Option<int>)
    ensures SliceOf(data, None, None) == data
    ensures |SliceOf(data, start, stop)| <= |data|
  {
  }

  /** The advanced check lets through any dict for a struct type whose keys it does not share,
      and a struct field is checked only when the dict has that key. */
  lemma AdvancedStructExamples(typeCls: (Value, DataType) -> bool, v: Value)
    requires forall x, t :: !typeCls(x, t)
    ensures IsValid(Advanced, typeCls, PyDict([("extra", v)]), StructType([("a", IntegerType)]))
    ensures !IsValid(Advanced, typeCls, PyDict([("a", PyInt(1))]), StructType([("a", IntegerType)]))
    ensures IsValid(Advanced, typeCls, PyDict([("a", PyNone)]), StructType([("a", IntegerType)]))
    ensures !IsValid(Advanced, typeCls, PyList([]), StructType([("a", IntegerType)]))
  {
    assert !HasKey([("extra", v)], "a");
    assert Get([("a", PyInt(1))], "a") == Some(PyInt(1));
    assert HasKey([("a", PyInt(1))], "a");
    assert !IsValid(Advanced, typeCls, PyInt(1), IntegerType);
    assert StructType([("a", IntegerType)]).fields[0] == ("a", IntegerType);
    assert Get([("a", PyNone)], "a") == Some(PyNone);
  }

  /** An advanced array can hold values its own slices reject: a slice is a plain `BaseArray`,
      whose check knows nothing of structs. With a corrected check that accepts nothing, `[{}]`
      is a valid advanced array of structs, but its slice `[:]` fails validation (as written, it
      raises AttributeError instead; see `AsWrittenExamples`). */
  lemma AdvancedSliceRejected(typeCls: (Value, DataType) -> bool)
    requires forall x, t :: !typeCls(x, t)
    ensures AllValid(Advanced, typeCls, [PyDict([])], StructType([]))
    ensures !AllValid(Plain, typeCls, SliceOf([PyDict([])], None, None), StructType([]))
  {
    assert IsValid(Advanced, typeCls, PyDict([]), StructType([]));
    var sliced := SliceOf([PyDict([])], None, None);
    assert sliced == [PyDict([])];
    assert !IsValid(Plain, typeCls, sliced[0], StructType([]));
  }
}
