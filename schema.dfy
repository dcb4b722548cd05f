/** Schema inference, core/DataTypes/Schema.py: the string sniffers of `SchemaHelper`, and
    `SchemaInference.infer_type`, `infer_schema`, `_unify_types` and `describe_schema`. */
module Schema {
  import opened Wrappers
  import opened Dicts
  import opened Text
  import opened Values
  import opened Types
  import opened Foreign
  import Cast
  import XmlTree

  // ---------------------------------------------------------------------------------------
  // SchemaHelper

  /** `is_integer`: `str.isdigit()`, at least one character and every one a digit. */
  predicate IsIntegerText(s: string)
  {
    s != [] && forall i :: 0 <= i < |s| ==> IsDigit(s[i])
  }

  /** `is_decimal`: whether `Decimal(s)` succeeds. Only InvalidOperation is caught; any other
      error leaves the helper. */
  function IsDecimal(lib: Lib, s: string): Result<bool>
  {
    match lib.toDecimal(PyStr(s))
    case Ok(_) => Ok(true)
    case Err(e) => if e == InvalidOperation then Ok(false) else Err(e)
  }

  /** `is_datetime`: one of the two formats parses. */
  predicate IsDatetimeText(lib: Lib, s: string)
  {
    lib.parseYmdHms(s).Some? || lib.parseYmd(s).Some?
  }

  /** `parse_datetime`: the first format that parses; a bare date is read as midnight. A value
      that is not a string makes `strptime` raise TypeError, which is not caught. */
  function ParseDatetime(lib: Lib, v: Value): (r: Result<Datetime>)
    ensures r.Ok? <==> v.PyStr? && IsDatetimeText(lib, v.s)
    ensures !v.PyStr? ==> r == Err(TypeError)
    ensures v.PyStr? && !IsDatetimeText(lib, v.s) ==> r == Err(ConversionError)
  {
    if !v.PyStr? then Err(TypeError)
    else
      match lib.parseYmdHms(v.s)
      case Some(t) => Ok(t)
      case None =>
        match lib.parseYmd(v.s)
        case Some(d) => Ok(Datetime(d, 0, 0, 0, 0))
        case None => Err(ConversionError)
  }

  /** `parse_date`: only the date format; its failure becomes ConversionError. */
  function ParseDate(lib: Lib, v: Value): (r: Result<Date>)
    ensures r.Ok? <==> v.PyStr? && lib.parseYmd(v.s).Some?
    ensures !v.PyStr? ==> r == Err(TypeError)
    ensures v.PyStr? && lib.parseYmd(v.s).None? ==> r == Err(ConversionError)
  {
    if !v.PyStr? then Err(TypeError)
    else
      match lib.parseYmd(v.s)
      case Some(d) => Ok(d)
      case None => Err(ConversionError)
  }

  /** Whatever `parse_date` accepts, `parse_datetime` and `is_datetime` accept too; a string
      only the date format reads comes out of `parse_datetime` as that date at midnight. */
  lemma ParseDateAgrees(lib: Lib, v: Value)
    requires ParseDate(lib, v).Ok?
    ensures IsDatetimeText(lib, v.s) && ParseDatetime(lib, v).Ok?
    ensures lib.parseYmdHms(v.s).None? ==>
      ParseDatetime(lib, v) == Ok(Datetime(ParseDate(lib, v).value, 0, 0, 0, 0))
  {
  }

  // ---------------------------------------------------------------------------------------
  // infer_type and infer_schema

  /** The branch of `infer_type` for a string: digits, then Decimal, then the two date formats.
      Each outcome holds exactly when its test passes and every earlier one fails, so an
      all-digit string is an Integer even though it is also a Decimal, a string is never a
      Date, and a Decimal error other than InvalidOperation escapes. */
  function InferText(lib: Lib, s: string): (r: Result<DataType>)
    ensures r == Ok(IntegerType) <==> IsIntegerText(s)
    ensures r == Ok(DecimalType) <==> !IsIntegerText(s) && lib.toDecimal(PyStr(s)).Ok?
    ensures r == Ok(DatetimeType) <==>
              !IsIntegerText(s) && lib.toDecimal(PyStr(s)) == Err(InvalidOperation) && IsDatetimeText(lib, s)
    ensures r == Ok(StringType) <==>
              !IsIntegerText(s) && lib.toDecimal(PyStr(s)) == Err(InvalidOperation) && !IsDatetimeText(lib, s)
    ensures r.Ok? ==> r.value in {IntegerType, DecimalType, DatetimeType, StringType}
    ensures r.Err? <==> !IsIntegerText(s) && lib.toDecimal(PyStr(s)).Err? &&
                        lib.toDecimal(PyStr(s)).error != InvalidOperation
    ensures r.Err? ==> lib.toDecimal(PyStr(s)) == Err(r.error)
  {
    if IsIntegerText(s) then Ok(IntegerType)
    else
      match IsDecimal(lib, s)
      case Err(e) => Err(e)
      case Ok(isDecimal) =>
        if isDecimal then Ok(DecimalType)
        else if IsDatetimeText(lib, s) then Ok(DatetimeType)
        else Ok(StringType)
  }

  /** `infer_type`: the type of one value; a list's element type is the unification of its
      elements' types, a dict becomes a struct of its values' types. */
  function InferType(lib: Lib, v: Value): Result<DataType>
    decreases v, 1
  {
    match v
    case PyNone => Ok(NestedNullType)
    case PyBool(_) => Ok(BooleanType)
    case PyInt(_) => Ok(IntegerType)
    case PyFloat(_) => Ok(if IsNaN(v) then NumericNullType else FloatType)
    case PyDecimal(_) => Ok(DecimalType)
    case PyStr(s) => InferText(lib, s)
    case PyDate(_) => Ok(DateType)
    case PyDatetime(_) => Ok(DatetimeType)
    case PyList(_) =>
      (match Sequence(InferItems(lib, v))
       case Ok(ts) => Ok(ListType(Unify(ts)))
       case Err(e) => Err(e))
    case PyDict(entries) =>
      (match Sequence(InferEntries(lib, v))
       case Ok(ts) => Ok(StructType(FromPairs(Zip(Keys(entries), ts))))
       case Err(e) => Err(e))
    case PyObject(_, _, _, _) => Err(DataTypeError)
  }

  /** Inference and casting read dates differently: a bare `%Y-%m-%d` string is inferred as
      DatetimeType, but casting that same string to DatetimeType accepts only the full
      `%Y-%m-%d %H:%M:%S` format and raises ValueError. */
  lemma BareDateInferredButNotCast(lib: Lib, s: string)
    requires !IsIntegerText(s) && lib.toDecimal(PyStr(s)) == Err(InvalidOperation)
    requires lib.parseYmdHms(s).None? && lib.parseYmd(s).Some?
    ensures InferType(lib, PyStr(s)) == Ok(DatetimeType)
    ensures Cast.CastValue(lib, PyStr(s), DatetimeType) == Err(ValueError)
  {
    assert InferText(lib, s) == Ok(DatetimeType);
    Cast.CastTemporalText(lib, s);
  }

  /** The precedence of `infer_type` on a value that is not a container: None is the nested
      null, a bool is a Boolean (checked before int), a NaN float is the numeric null, a date is
      a Date and a datetime a Datetime, a string is sniffed by `InferText`, and any other
      object raises DataTypeError. */
  lemma InferScalar(lib: Lib, v: Value)
    requires !v.PyList? && !v.PyDict?
    ensures InferType(lib, v).Err? <==> v.PyObject? || (v.PyStr? && InferText(lib, v.s).Err?)
    ensures v.PyObject? ==> InferType(lib, v) == Err(DataTypeError)
    ensures v.PyNone? ==> InferType(lib, v) == Ok(NestedNullType)
    ensures v.PyBool? ==> InferType(lib, v) == Ok(BooleanType)
    ensures v.PyInt? ==> InferType(lib, v) == Ok(IntegerType)
    ensures v.PyFloat? ==> InferType(lib, v) == Ok(if v.floatRepr == "nan" then NumericNullType else FloatType)
    ensures v.PyDecimal? ==> InferType(lib, v) == Ok(DecimalType)
    ensures v.PyDate? ==> InferType(lib, v) == Ok(DateType)
    ensures v.PyDatetime? ==> InferType(lib, v) == Ok(DatetimeType)
    ensures v.PyStr? ==> InferType(lib, v) == InferText(lib, v.s)
  {
  }

  /** `infer_schema({})` is the empty struct, while a non-empty dict is inferred field by field. */
  lemma EmptyDict(lib: Lib)
    ensures InferSchema(lib, PyDict([])) == Ok(StructType([]))
    ensures InferType(lib, PyDict([])) == Ok(StructType([]))
  {
    assert Sequence(InferEntries(lib, PyDict([]))) == Ok([]);
  }

  /** `[infer_type(el) for el in data]`. */
  function InferItems(lib: Lib, v: Value): (rs: seq<Result<DataType>>)
    requires v.PyList?
    ensures |rs| == |v.items|
    ensures forall i :: 0 <= i < |v.items| ==> rs[i] == InferType(lib, v.items[i])
    decreases v, 0
  {
    seq(|v.items|, i requires 0 <= i < |v.items| => InferType(lib, v.items[i]))
  }

  /** The values of `{k: infer_type(v) for k, v in data.items()}`. */
  function InferEntries(lib: Lib, v: Value): (rs: seq<Result<DataType>>)
    requires v.PyDict?
    ensures |rs| == |v.entries|
    ensures forall i :: 0 <= i < |v.entries| ==> rs[i] == InferType(lib, v.entries[i].1)
    decreases v, 0
  {
    seq(|v.entries|, i requires 0 <= i < |v.entries| => InferType(lib, v.entries[i].1))
  }

  /** `infer_schema`: as `infer_type`, except that an empty list is `ListType(NestedNullType)`
      and an empty dict the empty struct, and nested containers go through `infer_schema`. */
  function InferSchema(lib: Lib, v: Value): Result<DataType>
    decreases v, 1
  {
    match v
    case PyList(items) =>
      if items == [] then Ok(ListType(NestedNullType))
      else
        (match Sequence(SchemaItems(lib, v))
         case Ok(ts) => Ok(ListType(Unify(ts)))
         case Err(e) => Err(e))
    case PyDict(entries) =>
      if entries == [] then Ok(StructType([]))
      else
        (match Sequence(SchemaEntries(lib, v))
         case Ok(ts) => Ok(StructType(FromPairs(Zip(Keys(entries), ts))))
         case Err(e) => Err(e))
    case _ => InferType(lib, v)
  }

  /** `[infer_schema(el) for el in data]`. */
  function SchemaItems(lib: Lib, v: Value): (rs: seq<Result<DataType>>)
    requires v.PyList?
    ensures |rs| == |v.items|
    ensures forall i :: 0 <= i < |v.items| ==> rs[i] == InferSchema(lib, v.items[i])
    decreases v, 0
  {
    seq(|v.items|, i requires 0 <= i < |v.items| => InferSchema(lib, v.items[i]))
  }

  /** The values of `{key: infer_schema(value) for key, value in data.items()}`. */
  function SchemaEntries(lib: Lib, v: Value): (rs: seq<Result<DataType>>)
    requires v.PyDict?
    ensures |rs| == |v.entries|
    ensures forall i :: 0 <= i < |v.entries| ==> rs[i] == InferSchema(lib, v.entries[i].1)
    decreases v, 0
  {
    seq(|v.entries|, i requires 0 <= i < |v.entries| => InferSchema(lib, v.entries[i].1))
  }

  // ---------------------------------------------------------------------------------------
  // _unify_types

  function Classes(ts: seq<DataType>): (cs: seq<Class>)
    ensures |cs| == |ts| && forall i :: 0 <= i < |ts| ==> cs[i] == ClassOf(ts[i])
  {
    seq(|ts|, i requires 0 <= i < |ts| => ClassOf(ts[i]))
  }

  /** The first type of class `c` in `ts`. */
  function FirstOfClass(ts: seq<DataType>, c: Class): (t: DataType)
    requires c in Classes(ts)
    ensures t in ts && ClassOf(t) == c
  {
    if ClassOf(ts[0]) == c then ts[0]
    else
      assert Classes(ts[1..]) == Classes(ts)[1..];
      FirstOfClass(ts[1..], c)
  }

  /** `list(set(types))`. Types hash by class name and compare equal exactly when their classes
      are the same, so the set keeps one type per class, the first one inserted. */
  function UniqueByClass(ts: seq<DataType>): (u: seq<DataType>)
    ensures Distinct(Classes(u))
    ensures forall t :: t in u ==> t in ts
    ensures forall t :: t in ts ==> ClassOf(t) in Classes(u)
    ensures ts != [] ==> u != [] && u[0] == ts[0]
    ensures forall j :: 0 <= j < |u| ==> ClassOf(u[j]) in Classes(ts) &&
                                         u[j] == FirstOfClass(ts, ClassOf(u[j]))
  {
    if ts == [] then []
    else
      var front, last := ts[..|ts| - 1], ts[|ts| - 1];
      assert ts == front + [last];
      var rest := UniqueByClass(front);
      if ClassOf(last) in Classes(rest) then
        UniqueKeep(front, last, rest);
        rest
      else
        UniqueAdd(front, last, rest);
        rest + [last]
  }

  /** `UniqueByClass`'s step when the appended type's class is already kept. */
  lemma UniqueKeep(front: seq<DataType>, last: DataType, rest: seq<DataType>)
    requires Distinct(Classes(rest))
    requires forall t :: t in rest ==> t in front
    requires forall t :: t in front ==> ClassOf(t) in Classes(rest)
    requires front != [] ==> rest != [] && rest[0] == front[0]
    requires forall j :: 0 <= j < |rest| ==>
               ClassOf(rest[j]) in Classes(front) && rest[j] == FirstOfClass(front, ClassOf(rest[j]))
    requires ClassOf(last) in Classes(rest)
    ensures forall t :: t in rest ==> t in front + [last]
    ensures forall t :: t in front + [last] ==> ClassOf(t) in Classes(rest)
    ensures rest != [] && rest[0] == (front + [last])[0]
    ensures forall j :: 0 <= j < |rest| ==>
              ClassOf(rest[j]) in Classes(front + [last]) &&
              rest[j] == FirstOfClass(front + [last], ClassOf(rest[j]))
  {
    FirstOfClassSnoc(front, last);
  }

  /** `UniqueByClass`'s step when the appended type brings a new class. */
  lemma UniqueAdd(front: seq<DataType>, last: DataType, rest: seq<DataType>)
    requires Distinct(Classes(rest))
    requires forall t :: t in rest ==> t in front
    requires forall t :: t in front ==> ClassOf(t) in Classes(rest)
    requires front != [] ==> rest != [] && rest[0] == front[0]
    requires forall j :: 0 <= j < |rest| ==>
               ClassOf(rest[j]) in Classes(front) && rest[j] == FirstOfClass(front, ClassOf(rest[j]))
    requires ClassOf(last) !in Classes(rest)
    ensures Distinct(Classes(rest + [last]))
    ensures forall t :: t in rest + [last] ==> t in front + [last]
    ensures forall t :: t in front + [last] ==> ClassOf(t) in Classes(rest + [last])
    ensures (rest + [last])[0] == (front + [last])[0]
    ensures forall j :: 0 <= j < |rest + [last]| ==>
              ClassOf((rest + [last])[j]) in Classes(front + [last]) &&
              (rest + [last])[j] == FirstOfClass(front + [last], ClassOf((rest + [last])[j]))
  {
    FirstOfClassSnoc(front, last);
    assert Classes(rest + [last]) == Classes(rest) + [ClassOf(last)];
    assert ClassOf(last) !in Classes(front);
  }

  /** Appending a type does not change the first type of a class already present. */
  lemma {:induction false} FirstOfClassSnoc(ts: seq<DataType>, x: DataType)
    ensures Classes(ts + [x]) == Classes(ts) + [ClassOf(x)]
    ensures forall c :: c in Classes(ts) ==> FirstOfClass(ts + [x], c) == FirstOfClass(ts, c)
    ensures ClassOf(x) !in Classes(ts) ==> FirstOfClass(ts + [x], ClassOf(x)) == x
  {
    if ts != [] {
      assert (ts + [x])[1..] == ts[1..] + [x];
      assert Classes(ts[1..]) == Classes(ts)[1..];
      FirstOfClassSnoc(ts[1..], x);
    }
  }

  /** `[t for t in unique_types if t not in null_types]`: `in` compares with `==`, that is by
      class, so exactly the four null classes are dropped. */
  function NonNulls(ts: seq<DataType>): (r: seq<DataType>)
    ensures forall t :: t in r <==> t in ts && !IsNullKind(t)
    ensures Distinct(Classes(ts)) ==> Distinct(Classes(r))
  {
    if ts == [] then []
    else
      var rest := NonNulls(ts[1..]);
      assert Classes(ts[1..]) == Classes(ts)[1..];
      if IsNullKind(ts[0]) then rest
      else
        assert Classes([ts[0]] + rest) == [ClassOf(ts[0])] + Classes(rest);
        assert Distinct(Classes(ts)) ==> forall j :: 0 <= j < |rest| ==> ClassOf(rest[j]) != ClassOf(ts[0]) by {
          if Distinct(Classes(ts)) {
            forall j | 0 <= j < |rest|
              ensures ClassOf(rest[j]) != ClassOf(ts[0])
            {
              assert rest[j] in ts[1..];
              var k :| 0 <= k < |ts[1..]| && ts[1..][k] == rest[j];
              assert Classes(ts)[k + 1] != Classes(ts)[0];
            }
          }
        }
        [ts[0]] + rest
  }

  /** `_unify_types`. The list branch runs only when no type is left at all (the set holds one
      type per class, so two lists are already one), where it yields `ListType(NestedNullType)`;
      the struct branch cannot run, for the same reason. */
  function Unify(ts: seq<DataType>): DataType
  {
    var unique := UniqueByClass(ts);
    DistinctFirstTwo(unique);
    if |unique| == 1 then unique[0]
    else
      var nonNull := NonNulls(unique);
      if |nonNull| == 1 then nonNull[0]
      else if forall i :: 0 <= i < |unique| ==> unique[i].ListType? then
        ListType(NestedNullType)
      else if forall i :: 0 <= i < |unique| ==> unique[i].StructType? then
        assert false;
        StringType
      else StringType
  }

  lemma DistinctFirstTwo(u: seq<DataType>)
    requires Distinct(Classes(u))
    ensures |u| >= 2 ==> ClassOf(u[0]) != ClassOf(u[1])
  {
    assert |u| >= 2 ==> Classes(u)[0] != Classes(u)[1];
  }

  /** Types with distinct classes that all share one class are at most one. */
  lemma DistinctOneClass(u: seq<DataType>, c: Class)
    requires Distinct(Classes(u))
    requires forall t :: t in u ==> ClassOf(t) == c
    ensures |u| <= 1
  {
    DistinctFirstTwo(u);
  }

  lemma NullKindByClass(a: DataType, b: DataType)
    requires ClassOf(a) == ClassOf(b)
    ensures IsNullKind(a) == IsNullKind(b)
  {
  }

  /** Every type has the class of the first. */
  predicate OneClass(ts: seq<DataType>)
  {
    forall i :: 0 <= i < |ts| ==> ClassOf(ts[i]) == ClassOf(ts[0])
  }

  predicate HasNonNull(ts: seq<DataType>)
  {
    exists i :: 0 <= i < |ts| && !IsNullKind(ts[i])
  }

  /** The types outside the four null classes share one class. */
  predicate NonNullOneClass(ts: seq<DataType>)
  {
    forall i, j :: 0 <= i < |ts| && 0 <= j < |ts| && !IsNullKind(ts[i]) && !IsNullKind(ts[j]) ==>
      ClassOf(ts[i]) == ClassOf(ts[j])
  }

  function FirstNonNull(ts: seq<DataType>): (t: DataType)
    requires HasNonNull(ts)
    ensures t in ts && !IsNullKind(t)
  {
    if !IsNullKind(ts[0]) then ts[0]
    else
      assert HasNonNull(ts[1..]) by {
        var i :| 0 <= i < |ts| && !IsNullKind(ts[i]);
        assert ts[1..][i - 1] == ts[i];
      }
      FirstNonNull(ts[1..])
  }

  /** The set of types collapses to one exactly when all types share a class. */
  lemma UniqueSingleton(ts: seq<DataType>)
    ensures |UniqueByClass(ts)| == 1 <==> ts != [] && OneClass(ts)
  {
    var u := UniqueByClass(ts);
    if ts != [] && OneClass(ts) {
      forall t | t in u
        ensures ClassOf(t) == ClassOf(ts[0])
      {
        var i :| 0 <= i < |ts| && ts[i] == t;
      }
      DistinctOneClass(u, ClassOf(ts[0]));
    }
    if |u| == 1 {
      forall i | 0 <= i < |ts|
        ensures ClassOf(ts[i]) == ClassOf(ts[0])
      {
        assert ClassOf(ts[i]) in Classes(u);
        assert ClassOf(ts[0]) in Classes(u);
      }
    }
  }

  /** When the non-null types share one class, the first type of that class is the first
      non-null type. */
  lemma {:induction false} FirstOfClassIsFirstNonNull(ts: seq<DataType>, c: Class)
    requires c in Classes(ts)
    requires forall i :: 0 <= i < |ts| ==> (ClassOf(ts[i]) == c <==> !IsNullKind(ts[i]))
    ensures HasNonNull(ts) && FirstOfClass(ts, c) == FirstNonNull(ts)
  {
    var k :| 0 <= k < |ts| && Classes(ts)[k] == c;
    assert !IsNullKind(ts[k]);
    if ClassOf(ts[0]) != c {
      assert Classes(ts[1..]) == Classes(ts)[1..];
      assert ts[1..][k - 1] == ts[k];
      FirstOfClassIsFirstNonNull(ts[1..], c);
    }
  }

  /** The non-null part of the set is a single type exactly when the types outside the null
      classes exist and share a class; that type is then the first of them. */
  lemma NonNullSingleton(ts: seq<DataType>)
    ensures |NonNulls(UniqueByClass(ts))| == 1 <==> HasNonNull(ts) && NonNullOneClass(ts)
    ensures |NonNulls(UniqueByClass(ts))| == 1 ==> NonNulls(UniqueByClass(ts))[0] == FirstNonNull(ts)
  {
    var u := UniqueByClass(ts);
    var n := NonNulls(u);
    if HasNonNull(ts) && NonNullOneClass(ts) {
      var k :| 0 <= k < |ts| && !IsNullKind(ts[k]);
      var c := ClassOf(ts[k]);
      forall t | t in n
        ensures ClassOf(t) == c
      {
        var i :| 0 <= i < |ts| && ts[i] == t;
      }
      DistinctOneClass(n, c);
      assert c in Classes(u);
      var j :| 0 <= j < |u| && Classes(u)[j] == c;
      NullKindByClass(u[j], ts[k]);
      assert u[j] in n;
    }
    if |n| == 1 {
      var c := ClassOf(n[0]);
      assert n[0] in u;
      var i0 :| 0 <= i0 < |ts| && ts[i0] == n[0];
      forall i, j | 0 <= i < |ts| && 0 <= j < |ts| && !IsNullKind(ts[i]) && !IsNullKind(ts[j])
        ensures ClassOf(ts[i]) == ClassOf(ts[j])
      {
        NonNullHasClass(ts, u, n, i);
        NonNullHasClass(ts, u, n, j);
      }
      forall i | 0 <= i < |ts|
        ensures ClassOf(ts[i]) == c <==> !IsNullKind(ts[i])
      {
        if ClassOf(ts[i]) == c {
          NullKindByClass(ts[i], n[0]);
        }
      }
      var j0 :| 0 <= j0 < |u| && u[j0] == n[0];
      assert c in Classes(ts);
      FirstOfClassIsFirstNonNull(ts, c);
    }
  }

  /** A non-null type of `ts` has the class of the one non-null type left in the set. */
  lemma NonNullHasClass(ts: seq<DataType>, u: seq<DataType>, n: seq<DataType>, i: nat)
    requires forall t :: t in ts ==> ClassOf(t) in Classes(u)
    requires forall t :: t in n <==> t in u && !IsNullKind(t)
    requires |n| == 1
    requires i < |ts| && !IsNullKind(ts[i])
    ensures ClassOf(ts[i]) == ClassOf(n[0])
  {
    assert ts[i] in ts;
    var j :| 0 <= j < |u| && Classes(u)[j] == ClassOf(ts[i]);
    NullKindByClass(u[j], ts[i]);
    assert u[j] in n;
  }

  /** `_unify_types` in closed form: no types give `ListType(NestedNullType)`; types of one class
      give the first; otherwise the first non-null type when the non-null types share a class;
      otherwise StringType. */
  lemma UnifyCases(ts: seq<DataType>)
    ensures Unify(ts) ==
      if ts == [] then ListType(NestedNullType)
      else if OneClass(ts) then ts[0]
      else if HasNonNull(ts) && NonNullOneClass(ts) then FirstNonNull(ts)
      else StringType
  {
    var u := UniqueByClass(ts);
    UniqueSingleton(ts);
    NonNullSingleton(ts);
    if ts == [] {
      assert u == [] && NonNulls(u) == [];
    } else if !OneClass(ts) && !(HasNonNull(ts) && NonNullOneClass(ts)) {
      assert |u| != 1;
      MixedClasses(u);
    }
  }

  /** Two or more types of distinct classes are neither all lists nor all structs. */
  lemma MixedClasses(u: seq<DataType>)
    requires Distinct(Classes(u)) && u != []
    requires |u| != 1
    ensures !(forall i :: 0 <= i < |u| ==> u[i].ListType?)
    ensures !(forall i :: 0 <= i < |u| ==> u[i].StructType?)
  {
    DistinctFirstTwo(u);
  }

  /** The unified type is one of the given types, StringType, or the empty-list element type. */
  lemma UnifyFrom(ts: seq<DataType>)
    ensures Unify(ts) in ts || Unify(ts) == StringType || Unify(ts) == ListType(NestedNullType)
  {
    UnifyCases(ts);
  }

  /** Nulls among a list's elements do not count against a type shared by the others. */
  lemma UnifySkipsNulls(t: DataType, nulls: seq<DataType>)
    requires !IsNullKind(t)
    requires forall i :: 0 <= i < |nulls| ==> IsNullKind(nulls[i])
    ensures Unify([t] + nulls + [t]) == t
  {
    var ts := [t] + nulls + [t];
    UnifyCases(ts);
    assert ts[0] == t && ts[|ts| - 1] == t;
    forall i | 0 <= i < |ts|
      ensures !IsNullKind(ts[i]) ==> ts[i] == t
    {
      if 0 < i < |ts| - 1 {
        assert ts[i] == nulls[i - 1];
      }
    }
  }

  // ---------------------------------------------------------------------------------------
  // Properties of inference

  /** Every type `infer_type` produces is settled, so `promote_types` maps it to itself. */
  lemma {:induction false} InferredSettled(lib: Lib, v: Value)
    requires InferType(lib, v).Ok?
    ensures Cast.Settled(InferType(lib, v).value)
    decreases v
  {
    match v
    case PyList(items) =>
      forall i | 0 <= i < |items|
        ensures InferType(lib, items[i]).Ok? ==> Cast.Settled(InferType(lib, items[i]).value)
      {
        if InferType(lib, items[i]).Ok? {
          InferredSettled(lib, items[i]);
        }
      }
      ListSettled(lib, v);
    case PyDict(entries) =>
      forall i | 0 <= i < |entries|
        ensures InferType(lib, entries[i].1).Ok? ==> Cast.Settled(InferType(lib, entries[i].1).value)
      {
        if InferType(lib, entries[i].1).Ok? {
          InferredSettled(lib, entries[i].1);
        }
      }
      DictSettled(lib, v);
    case PyStr(s) =>
    case _ =>
      ScalarSettled(lib, v);
  }

  lemma ScalarSettled(lib: Lib, v: Value)
    requires !v.PyList? && !v.PyDict? && !v.PyStr? && InferType(lib, v).Ok?
    ensures Cast.Settled(InferType(lib, v).value)
  {
  }

  /** `infer_type` on a list whose elements all infer. */
  lemma InferListRule(lib: Lib, v: Value)
    requires v.PyList? && Sequence(InferItems(lib, v)).Ok?
    ensures InferType(lib, v) == Ok(ListType(Unify(Sequence(InferItems(lib, v)).value)))
  {
  }

  /** `infer_type` on a dict whose values all infer. */
  lemma InferDictRule(lib: Lib, v: Value)
    requires v.PyDict? && Sequence(InferEntries(lib, v)).Ok?
    ensures InferType(lib, v) ==
      Ok(StructType(FromPairs(Zip(Keys(v.entries), Sequence(InferEntries(lib, v)).value))))
  {
  }

  /** `infer_schema` on a non-empty dict whose values all infer. */
  lemma SchemaDictRule(lib: Lib, v: Value)
    requires v.PyDict? && v.entries != [] && Sequence(SchemaEntries(lib, v)).Ok?
    ensures InferSchema(lib, v) ==
      Ok(StructType(FromPairs(Zip(Keys(v.entries), Sequence(SchemaEntries(lib, v)).value))))
  {
  }

  /** `infer_schema` on a non-empty list whose elements all infer. */
  lemma SchemaListRule(lib: Lib, v: Value)
    requires v.PyList? && v.items != [] && Sequence(SchemaItems(lib, v)).Ok?
    ensures InferSchema(lib, v) == Ok(ListType(Unify(Sequence(SchemaItems(lib, v)).value)))
  {
  }

  lemma ListSettled(lib: Lib, v: Value)
    requires v.PyList? && InferType(lib, v).Ok?
    requires forall i :: 0 <= i < |v.items| && InferType(lib, v.items[i]).Ok? ==>
               Cast.Settled(InferType(lib, v.items[i]).value)
    ensures Cast.Settled(InferType(lib, v).value)
  {
    var rs := InferItems(lib, v);
    assert Sequence(rs).Ok?;
    var ts := Sequence(rs).value;
    InferListRule(lib, v);
    forall i | 0 <= i < |ts|
      ensures Cast.Settled(ts[i])
    {
      assert rs[i] == InferType(lib, v.items[i]);
    }
    UnifySettled(ts);
  }

  /** Unifying settled types gives a settled type. */
  lemma UnifySettled(ts: seq<DataType>)
    requires forall i :: 0 <= i < |ts| ==> Cast.Settled(ts[i])
    ensures Cast.Settled(Unify(ts))
  {
    UnifyFrom(ts);
  }

  lemma DictSettled(lib: Lib, v: Value)
    requires v.PyDict? && InferType(lib, v).Ok?
    requires forall i :: 0 <= i < |v.entries| && InferType(lib, v.entries[i].1).Ok? ==>
               Cast.Settled(InferType(lib, v.entries[i].1).value)
    ensures Cast.Settled(InferType(lib, v).value)
  {
    var rs := InferEntries(lib, v);
    assert Sequence(rs).Ok?;
    var ts := Sequence(rs).value;
    InferDictRule(lib, v);
    var pairs := Zip(Keys(v.entries), ts);
    var fields := FromPairs(pairs);
    FromPairsShape(pairs);
    forall i | 0 <= i < |fields|
      ensures Cast.Settled(fields[i].1)
    {
      assert fields[i] in pairs;
      var j :| 0 <= j < |pairs| && pairs[j] == fields[i];
      assert rs[j] == InferType(lib, v.entries[j].1);
    }
  }

  /** The entries of `dict(pairs)` have distinct keys and each is one of the pairs. */
  lemma FromPairsShape<K, V>(pairs: seq<(K, V)>)
    ensures Distinct(Keys(FromPairs(pairs)))
    ensures forall e :: e in FromPairs(pairs) ==> e in pairs
  {
    PutAllShape([], pairs);
  }

  lemma {:induction false} PutAllShape<K, V>(d: Dict<K, V>, pairs: seq<(K, V)>)
    requires Distinct(Keys(d))
    ensures Distinct(Keys(PutAll(d, pairs)))
    ensures forall e :: e in PutAll(d, pairs) ==> e in d || e in pairs
    decreases |pairs|
  {
    if pairs != [] {
      var d' := Put(d, pairs[0].0, pairs[0].1);
      PutPreservesDistinct(d, pairs[0].0, pairs[0].1);
      PutEntries(d, pairs[0].0, pairs[0].1);
      PutAllShape(d', pairs[1..]);
      forall e | e in pairs[1..]
        ensures e in pairs
      {
      }
    }
  }

  lemma {:induction false} PutEntries<K, V>(d: Dict<K, V>, k: K, v: V)
    ensures forall e :: e in Put(d, k, v) ==> e in d || e == (k, v)
  {
    if d != [] && d[0].0 != k {
      PutEntries(d[1..], k, v);
    }
  }

  /** Since inferred types are settled, promoting an inferred type with itself changes nothing. */
  lemma InferredPromotesToItself(lib: Lib, v: Value)
    requires InferType(lib, v).Ok?
    ensures Cast.PromoteTypes(InferType(lib, v).value, InferType(lib, v).value) ==
            Ok(InferType(lib, v).value)
  {
    InferredSettled(lib, v);
    Cast.PromoteIdempotent(InferType(lib, v).value);
  }

  /** No list anywhere inside is empty. */
  predicate NoEmptyList(v: Value)
    decreases v
  {
    match v
    case PyList(items) => items != [] && forall i :: 0 <= i < |items| ==> NoEmptyList(items[i])
    case PyDict(entries) => forall i :: 0 <= i < |entries| ==> NoEmptyList(entries[i].1)
    case _ => true
  }

  /** `infer_schema` and `infer_type` agree wherever no list is empty; they part only on `[]`. */
  lemma {:induction false} InferSchemaAgrees(lib: Lib, v: Value)
    requires NoEmptyList(v)
    ensures InferSchema(lib, v) == InferType(lib, v)
    decreases v
  {
    match v
    case PyList(items) =>
      forall i | 0 <= i < |items|
        ensures SchemaItems(lib, v)[i] == InferItems(lib, v)[i]
      {
        InferSchemaAgrees(lib, items[i]);
      }
      assert SchemaItems(lib, v) == InferItems(lib, v);
    case PyDict(entries) =>
      forall i | 0 <= i < |entries|
        ensures SchemaEntries(lib, v)[i] == InferEntries(lib, v)[i]
      {
        InferSchemaAgrees(lib, entries[i].1);
      }
      assert SchemaEntries(lib, v) == InferEntries(lib, v);
      if entries == [] {
        assert Sequence(InferEntries(lib, v)) == Ok([]);
        var noTypes: seq<DataType> := [];
        assert Zip(Keys(entries), noTypes) == [];
      }
    case _ =>
  }

  /** The one place they part: an empty list. */
  lemma EmptyList(lib: Lib)
    ensures InferType(lib, PyList([])) == Ok(ListType(ListType(NestedNullType)))
    ensures InferSchema(lib, PyList([])) == Ok(ListType(NestedNullType))
  {
    UnifyCases([]);
    assert Sequence(InferItems(lib, PyList([]))) == Ok([]);
  }

  /** `[1, None, 2]` is a list of integers: the null does not count. */
  lemma InferListWithNull(lib: Lib, a: int, b: int)
    ensures InferType(lib, PyList([PyInt(a), PyNone, PyInt(b)])) == Ok(ListType(IntegerType))
  {
    var v := PyList([PyInt(a), PyNone, PyInt(b)]);
    var ts := [IntegerType, NestedNullType, IntegerType];
    SequenceAllOk(InferItems(lib, v), ts);
    InferListRule(lib, v);
    UnifyNullBetween();
  }

  lemma UnifyNullBetween()
    ensures Unify([IntegerType, NestedNullType, IntegerType]) == IntegerType
  {
    UnifySkipsNulls(IntegerType, [NestedNullType]);
    assert [IntegerType] + [NestedNullType] + [IntegerType] == [IntegerType, NestedNullType, IntegerType];
  }

  /** `[1, 2.5]` falls back to a list of strings: integers and floats are not unified. */
  lemma InferListMixedNumbers(lib: Lib, a: int, f: string)
    requires f != "nan"
    ensures InferType(lib, PyList([PyInt(a), PyFloat(f)])) == Ok(ListType(StringType))
  {
    var v := PyList([PyInt(a), PyFloat(f)]);
    var ts := [IntegerType, FloatType];
    assert InferType(lib, PyFloat(f)) == Ok(FloatType);
    SequenceAllOk(InferItems(lib, v), ts);
    InferListRule(lib, v);
    UnifyIntegerFloat();
  }

  lemma UnifyIntegerFloat()
    ensures Unify([IntegerType, FloatType]) == StringType
  {
    UnifyTwoClasses(IntegerType, FloatType);
  }

  /** Two non-null types of different classes unify to StringType. */
  lemma UnifyTwoClasses(a: DataType, b: DataType)
    requires !IsNullKind(a) && !IsNullKind(b) && ClassOf(a) != ClassOf(b)
    ensures Unify([a, b]) == StringType
  {
    var ts := [a, b];
    UnifyCases(ts);
    assert !NonNullOneClass(ts) by {
      assert ClassOf(ts[0]) != ClassOf(ts[1]);
    }
  }

  /** In a list of dicts the first dict's struct stands for all of them: every struct has the
      same class, so the set keeps only the first and the later dicts' keys are lost. */
  lemma FirstStructWins(lib: Lib, items: seq<Value>)
    requires items != [] && AllDicts(items)
    requires forall i :: 0 <= i < |items| ==> InferType(lib, items[i]).Ok?
    ensures InferType(lib, PyList(items)) == Ok(ListType(InferType(lib, items[0]).value))
  {
    var v := PyList(items);
    var ts := seq(|items|, i requires 0 <= i < |items| => InferType(lib, items[i]).value);
    SequenceAllOk(InferItems(lib, v), ts);
    InferListRule(lib, v);
    StructsOneClass(lib, items, ts);
    UnifyOneClass(ts);
  }

  /** The types inferred for dicts all have the struct class. */
  lemma StructsOneClass(lib: Lib, items: seq<Value>, ts: seq<DataType>)
    requires items != [] && AllDicts(items) && |ts| == |items|
    requires forall i :: 0 <= i < |items| ==> InferType(lib, items[i]) == Ok(ts[i])
    ensures OneClass(ts)
  {
    forall i | 0 <= i < |ts|
      ensures ClassOf(ts[i]) == CStruct
    {
      DictInfersStruct(lib, items[i]);
    }
  }

  /** Types of one class unify to the first. */
  lemma UnifyOneClass(ts: seq<DataType>)
    requires ts != [] && OneClass(ts)
    ensures Unify(ts) == ts[0]
  {
    UnifyCases(ts);
  }

  lemma DictInfersStruct(lib: Lib, v: Value)
    requires v.PyDict? && InferType(lib, v).Ok?
    ensures InferType(lib, v).value.StructType?
  {
    InferDictRule(lib, v);
  }

  /** The example `[{"a": 1}, {"b": "x"}]` (with "x" rejected by Decimal, as it is): the element
      type has field `a` only. */
  lemma FirstStructExample(lib: Lib)
    requires lib.toDecimal(PyStr("x")) == Err(InvalidOperation)
    ensures InferType(lib, PyList([PyDict([("a", PyInt(1))]), PyDict([("b", PyStr("x"))])])) ==
            Ok(ListType(StructType([("a", IntegerType)])))
  {
    var d1 := PyDict([("a", PyInt(1))]);
    var d2 := PyDict([("b", PyStr("x"))]);
    SequenceAllOk(InferEntries(lib, d1), [IntegerType]);
    InferDictRule(lib, d1);
    assert Zip(Keys(d1.entries), [IntegerType]) == [("a", IntegerType)];
    FromPairsDistinct([("a", IntegerType)]);
    assert InferType(lib, d1) == Ok(StructType([("a", IntegerType)]));
    assert InferText(lib, "x").Ok?;
    SequenceAllOk(InferEntries(lib, d2), [InferText(lib, "x").value]);
    InferDictRule(lib, d2);
    FirstStructWins(lib, [d1, d2]);
  }

  // ---------------------------------------------------------------------------------------
  // describe_schema

  /** `describe_schema`: a struct as `{"type": "struct", "fields": {...}}`, a list as
      `{"type": "list", "element": ...}`, anything else as `{"type": <class name>}`. */
  function DescribeSchema(t: DataType): Value
    decreases t, 1
  {
    match t
    case StructType(fields) =>
      PyDict([("type", PyStr("struct")), ("fields", PyDict(FromPairs(DescribeFields(t))))])
    case ListType(inner) =>
      PyDict([("type", PyStr("list")), ("element", DescribeSchema(inner))])
    case _ =>
      PyDict([("type", PyStr(ClassName(ClassOf(t))))])
  }

  /** The pairs of `{k: describe_schema(v) for k, v in schema.fields.items()}`. */
  function DescribeFields(t: DataType): (ps: seq<(string, Value)>)
    requires t.StructType?
    ensures |ps| == |t.fields|
    ensures forall i :: 0 <= i < |ps| ==> ps[i] == (t.fields[i].0, DescribeSchema(t.fields[i].1))
    decreases t, 0
  {
    seq(|t.fields|, i requires 0 <= i < |t.fields| => (t.fields[i].0, DescribeSchema(t.fields[i].1)))
  }

  /** The index of the first entry under `k`. */
  function Find(entries: seq<(string, Value)>, k: string): (r: Option<nat>)
    ensures r.Some? <==> HasKey(entries, k)
    ensures r.Some? ==> r.value < |entries| && entries[r.value].0 == k &&
                        forall j :: 0 <= j < r.value ==> entries[j].0 != k
  {
    if entries == [] then None
    else if entries[0].0 == k then Some(0)
    else
      match Find(entries[1..], k)
      case Some(i) => Some(i + 1)
      case None => None
  }

  /** The type a leaf class name stands for (every class but the list and struct ones). */
  function ClassFromName(name: string): (r: Option<DataType>)
    ensures r.Some? ==> !r.value.ListType? && !r.value.StructType?
  {
    match name
    case "DataType" => Some(DataTypeBase)
    case "NumericType" => Some(NumericType)
    case "IntegerType" => Some(IntegerType)
    case "FloatType" => Some(FloatType)
    case "DecimalType" => Some(DecimalType)
    case "NumericNullType" => Some(NumericNullType)
    case "TemporalType" => Some(TemporalType)
    case "DateType" => Some(DateType)
    case "DatetimeType" => Some(DatetimeType)
    case "TimeType" => Some(TimeType)
    case "DurationType" => Some(DurationType)
    case "TemporalNullType" => Some(TemporalNullType)
    case "CategoricalType" => Some(CategoricalType)
    case "BooleanType" => Some(BooleanType)
    case "StringType" => Some(StringType)
    case "BinaryType" => Some(BinaryType)
    case "CategoricalNullType" => Some(CategoricalNullType)
    case "NestedType" => Some(NestedType)
    case "NestedNullType" => Some(NestedNullType)
    case "BaseNullType" => Some(BaseNullType)
    case _ => None
  }

  /** Reads a schema back from its description; the inverse of `DescribeSchema`. */
  function Undescribe(v: Value): Option<DataType>
    decreases v, 1
  {
    match v
    case PyDict(entries) =>
      (match Find(entries, "type")
       case Some(i) =>
         if entries[i].1 == PyStr("struct") then
           match Find(entries, "fields")
           case Some(j) => if entries[j].1.PyDict? then UndescribeFields(entries[j].1) else None
           case None => None
         else if entries[i].1 == PyStr("list") then
           match Find(entries, "element")
           case Some(j) =>
             (match Undescribe(entries[j].1)
              case Some(inner) => Some(ListType(inner))
              case None => None)
           case None => None
         else if entries[i].1.PyStr? then ClassFromName(entries[i].1.s)
         else None
       case None => None)
    case _ => None
  }

  function UndescribeFields(v: Value): (r: Option<DataType>)
    requires v.PyDict?
    ensures r.Some? <==> forall k :: 0 <= k < |v.entries| ==> Undescribe(v.entries[k].1).Some?
    ensures r.Some? ==>
              r.value.StructType? && |r.value.fields| == |v.entries| &&
              (forall k :: 0 <= k < |v.entries| ==>
                 r.value.fields[k] == (v.entries[k].0, Undescribe(v.entries[k].1).value))
    decreases v, 0
  {
    if forall k :: 0 <= k < |v.entries| ==> Undescribe(v.entries[k].1).Some? then
      Some(StructType(seq(|v.entries|, k requires 0 <= k < |v.entries| =>
                                         (v.entries[k].0, Undescribe(v.entries[k].1).value))))
    else None
  }

  /** Struct field names are distinct at every depth, as in a Python dict. */
  predicate KeysDistinct(t: DataType)
  {
    match t
    case ListType(inner) => KeysDistinct(inner)
    case StructType(fields) =>
      Distinct(Keys(fields)) && forall i :: 0 <= i < |fields| ==> KeysDistinct(fields[i].1)
    case _ => true
  }

  lemma ClassNameRoundTrip(t: DataType)
    requires !t.ListType? && !t.StructType?
    ensures ClassFromName(ClassName(ClassOf(t))) == Some(t)
  {
  }

  /** A schema is recovered from its description. */
  lemma {:induction false} DescribeRoundTrip(t: DataType)
    requires KeysDistinct(t)
    ensures Undescribe(DescribeSchema(t)) == Some(t)
    decreases t, 1
  {
    match t
    case StructType(_) =>
      DescribeStructRoundTrip(t);
    case ListType(inner) =>
      DescribeRoundTrip(inner);
      DescribeListRule(t);
    case _ =>
      ClassNameRoundTrip(t);
      DescribeLeafRule(t);
  }

  lemma DescribeLeafRule(t: DataType)
    requires !t.ListType? && !t.StructType?
    ensures DescribeSchema(t) == PyDict([("type", PyStr(ClassName(ClassOf(t))))])
    ensures Undescribe(DescribeSchema(t)) == ClassFromName(ClassName(ClassOf(t)))
  {
    var name := ClassName(ClassOf(t));
    NotNestedName(ClassOf(t));
    UndescribeName(name);
  }

  /** No class is named `struct` or `list`. */
  lemma NotNestedName(c: Class)
    ensures ClassName(c) != "struct" && ClassName(c) != "list"
  {
  }

  /** A one-entry description naming neither `struct` nor `list` is read back by class name. */
  lemma UndescribeName(name: string)
    requires name != "struct" && name != "list"
    ensures Undescribe(PyDict([("type", PyStr(name))])) == ClassFromName(name)
  {
    assert Find([("type", PyStr(name))], "type") == Some(0);
  }

  lemma DescribeListRule(t: DataType)
    requires t.ListType?
    ensures Undescribe(DescribeSchema(t)) ==
      match Undescribe(DescribeSchema(t.innerType))
      case Some(inner) => Some(ListType(inner))
      case None => None
  {
    var d := DescribeSchema(t);
    assert Find(d.entries, "type") == Some(0);
    assert Find(d.entries, "element") == Some(1);
  }

  lemma {:induction false} DescribeStructRoundTrip(t: DataType)
    requires t.StructType? && KeysDistinct(t)
    ensures Undescribe(DescribeSchema(t)) == Some(t)
    decreases t, 0
  {
    var fields := t.fields;
    var ps := DescribeFields(t);
    assert Keys(ps) == Keys(fields);
    FromPairsDistinct(ps);
    var d := DescribeSchema(t);
    assert d == PyDict([("type", PyStr("struct")), ("fields", PyDict(ps))]);
    assert Find(d.entries, "type") == Some(0);
    assert Find(d.entries, "fields") == Some(1);
    forall k | 0 <= k < |ps|
      ensures Undescribe(ps[k].1) == Some(fields[k].1)
    {
      DescribeRoundTrip(fields[k].1);
    }
    var back := UndescribeFields(PyDict(ps));
    assert back.Some?;
    assert back.value.fields == fields;
  }

  /** The description tells apart what `==` does not: list types of different element types. */
  lemma DescribeSeparatesListTypes()
    ensures OpEq(ListType(IntegerType), ListType(StringType))
    ensures DescribeSchema(ListType(IntegerType)) != DescribeSchema(ListType(StringType))
  {
    assert DescribeSchema(ListType(IntegerType)).entries[1].1 != DescribeSchema(ListType(StringType)).entries[1].1 by {
      assert DescribeSchema(IntegerType).entries[0].1 == PyStr("IntegerType");
    }
  }

  /** The schema inferred for a flat record is a struct whose field for each key is what that
      key's string infers to. */
  lemma FlatRecordSchema(lib: Lib, entries: seq<(string, Value)>)
    requires entries != [] && XmlTree.FlatRecord(entries)
    requires InferSchema(lib, PyDict(entries)).Ok?
    ensures InferSchema(lib, PyDict(entries)).value.StructType?
    ensures forall i :: 0 <= i < |entries| ==>
              InferText(lib, entries[i].1.s).Ok? &&
              FieldOrNull(InferSchema(lib, PyDict(entries)).value.fields, entries[i].0) ==
                InferText(lib, entries[i].1.s).value
  {
    var v := PyDict(entries);
    SchemaDictOk(lib, v);
    var ts := Sequence(SchemaEntries(lib, v)).value;
    var pairs := Zip(Keys(entries), ts);
    FromPairsDistinct(pairs);
    SchemaDictRule(lib, v);
    FlatTexts(lib, entries);
    FlatFields(lib, entries, ts);
  }

  /** A non-empty dict whose schema is inferred has every value's schema inferred. */
  lemma SchemaDictOk(lib: Lib, v: Value)
    requires v.PyDict? && v.entries != [] && InferSchema(lib, v).Ok?
    ensures Sequence(SchemaEntries(lib, v)).Ok?
  {
  }

  /** The fields of a flat record infer as their texts do. */
  lemma FlatTexts(lib: Lib, entries: seq<(string, Value)>)
    requires forall i :: 0 <= i < |entries| ==> entries[i].1.PyStr?
    requires Sequence(SchemaEntries(lib, PyDict(entries))).Ok?
    ensures forall i :: 0 <= i < |entries| ==>
              InferText(lib, entries[i].1.s) == Ok(Sequence(SchemaEntries(lib, PyDict(entries))).value[i])
  {
    forall i | 0 <= i < |entries|
      ensures InferText(lib, entries[i].1.s) == Ok(Sequence(SchemaEntries(lib, PyDict(entries))).value[i])
    {
      assert SchemaEntries(lib, PyDict(entries))[i] == InferSchema(lib, entries[i].1);
    }
  }

  /** Each key of a record with distinct keys finds its own type in the zipped fields. */
  lemma FlatFields(lib: Lib, entries: seq<(string, Value)>, ts: seq<DataType>)
    requires Distinct(Keys(entries)) && |ts| == |entries|
    requires forall i :: 0 <= i < |entries| ==>
               entries[i].1.PyStr? && InferText(lib, entries[i].1.s) == Ok(ts[i])
    ensures forall i :: 0 <= i < |entries| ==>
              InferText(lib, entries[i].1.s).Ok? &&
              FieldOrNull(Zip(Keys(entries), ts), entries[i].0) == InferText(lib, entries[i].1.s).value
  {
    forall i | 0 <= i < |entries|
      ensures FieldOrNull(Zip(Keys(entries), ts), entries[i].0) == ts[i]
    {
      GetDistinct(Zip(Keys(entries), ts), i);
    }
  }

  /** A one-key dict infers a one-field struct. */
  lemma SingleKeySchema(lib: Lib, key: string, v: Value)
    requires InferSchema(lib, v).Ok?
    ensures InferSchema(lib, PyDict([(key, v)])) == Ok(StructType([(key, InferSchema(lib, v).value)]))
  {
    var t := InferSchema(lib, v).value;
    var data := PyDict([(key, v)]);
    SequenceAllOk(SchemaEntries(lib, data), [t]);
    assert Zip(Keys(data.entries), [t]) == [(key, t)];
    FromPairsDistinct([(key, t)]);
    SchemaDictRule(lib, data);
  }
}
