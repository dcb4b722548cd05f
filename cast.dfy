/** Type promotion and value casting (core/DataTypes/Cast.py, class `TypeCast`). */
module Cast {
  import opened Wrappers
  import opened Dicts
  import opened Text
  import opened Values
  import opened Types
  import opened Foreign

  // ---------------------------------------------------------------------------------------
  // promote_types

  /** `set(f1) | set(f2)`: every key of either struct, once. Python iterates the set in hash
      order; here the keys of `f1` come first, then the new keys of `f2`. */
  function UnionKeys(f1: seq<(string, DataType)>, f2: seq<(string, DataType)>): (ks: seq<string>)
    ensures Distinct(ks)
    ensures forall k :: k in ks <==> HasKey(f1, k) || HasKey(f2, k)
  {
    KeysMembership(f1);
    KeysMembership(f2);
    Dedup(Keys(f1) + Keys(f2))
  }

  /** `TypeCast.promote_types(type1, type2)`: the common type of two types, or DataTypeError. */
  function PromoteTypes(t1: DataType, t2: DataType): (r: Result<DataType>)
    ensures r.Err? ==> r.error == DataTypeError
    decreases Size(t1) + Size(t2), 3
  {
    if IsNullKind(t1) then Ok(t2)
    else if IsNullKind(t2) then Ok(t1)
    else if ScalarRule(t1, t2).Some? then Ok(ScalarRule(t1, t2).value)
    else if t1.ListType? && t2.ListType? then
      match PromoteTypes(t1.innerType, t2.innerType)
      case Ok(inner) => Ok(ListType(inner))
      case Err(e) => Err(e)
    else if t1.StructType? && t2.StructType? then PromoteStructs(t1, t2)
    else if IsInstance(t1, CBinary) && IsInstance(t2, CBinary) then Ok(BinaryType)
    else Err(DataTypeError)
  }

  /** The numeric, temporal and categorical promotion rules, tried in that order; None when
      the two types are not of one of those families. */
  function ScalarRule(t1: DataType, t2: DataType): Option<DataType>
  {
    if IsInstance(t1, CNumeric) && IsInstance(t2, CNumeric) then
      if IsInstance(t1, CDecimal) || IsInstance(t2, CDecimal) then Some(DecimalType)
      else if IsInstance(t1, CFloat) || IsInstance(t2, CFloat) then Some(FloatType)
      else Some(IntegerType)
    else if IsInstance(t1, CTemporal) && IsInstance(t2, CTemporal) then
      if IsInstance(t1, CDuration) || IsInstance(t2, CDuration) then Some(DurationType)
      else if IsInstance(t1, CDatetime) || IsInstance(t2, CDatetime) then Some(DatetimeType)
      else if IsInstance(t1, CDate) || IsInstance(t2, CDate) then Some(DateType)
      else Some(TimeType)
    else if IsInstance(t1, CCategorical) && IsInstance(t2, CCategorical) then
      if IsInstance(t1, CString) || IsInstance(t2, CString) then Some(StringType)
      else if IsInstance(t1, CBoolean) && IsInstance(t2, CBoolean) then Some(BooleanType)
      else Some(CategoricalType)
    else None
  }

  /** The struct rule: one entry per key of either struct, each the promotion of the two field types. */
  function PromoteStructs(t1: DataType, t2: DataType): (r: Result<DataType>)
    requires t1.StructType? && t2.StructType?
    ensures r.Err? ==> r.error == DataTypeError
    ensures r.Ok? ==> r.value.StructType?
    decreases Size(t1) + Size(t2), 2
  {
    var keys := UnionKeys(t1.fields, t2.fields);
    match Sequence(FieldPromotions(t1, t2, keys))
    case Ok(ts) => Ok(StructType(Zip(keys, ts)))
    case Err(e) => Err(e)
  }

  /** The comprehension's values, key by key. */
  function FieldPromotions(t1: DataType, t2: DataType, keys: seq<string>): (rs: seq<Result<DataType>>)
    requires t1.StructType? && t2.StructType?
    requires forall k :: k in keys ==> HasKey(t1.fields, k) || HasKey(t2.fields, k)
    ensures |rs| == |keys|
    ensures forall i :: 0 <= i < |keys| ==> rs[i] == PromoteField(t1, t2, keys[i])
    decreases Size(t1) + Size(t2), 1
  {
    seq(|keys|, i requires 0 <= i < |keys| => PromoteField(t1, t2, keys[i]))
  }

  /** One entry of the struct comprehension: both sides' field types, `NestedNullType()` where absent. */
  function PromoteField(t1: DataType, t2: DataType, k: string): (r: Result<DataType>)
    requires t1.StructType? && t2.StructType?
    requires HasKey(t1.fields, k) || HasKey(t2.fields, k)
    ensures r.Err? ==> r.error == DataTypeError
    decreases Size(t1) + Size(t2), 0
  {
    FieldOrNullSmaller(t1.fields, k);
    FieldOrNullSmaller(t2.fields, k);
    PromoteTypes(FieldOrNull(t1.fields, k), FieldOrNull(t2.fields, k))
  }

  /** `TypeCast.can_cast(source, target)`: promotion does not raise DataTypeError. */
  predicate CanCast(source: DataType, target: DataType)
  {
    PromoteTypes(source, target).Ok?
  }

  // ---------------------------------------------------------------------------------------
  // The promotion rules as a ranking within each family

  /** The root class of a family of scalar types. */
  function FamilyClass(f: Category): Class
    requires f != Nested
  {
    match f
    case Numeric => CNumeric
    case Temporal => CTemporal
    case Categorical => CCategorical
  }

  /** How wide a scalar type is within its family: Integer < Float < Decimal;
      Time < Date < Datetime < Duration; Boolean < Categorical, Binary < String.
      The abstract `NumericType` and `TemporalType` rank with the narrowest class. */
  function Rank(t: DataType): nat
  {
    match t
    case NumericType | IntegerType | TemporalType | TimeType | BooleanType => 1
    case FloatType | DateType | CategoricalType | BinaryType => 2
    case DecimalType | DatetimeType | StringType => 3
    case DurationType => 4
    case _ => 0
  }

  /** The type of a family that a given rank stands for. */
  function AtRank(f: Category, n: nat): DataType
    requires f != Nested
  {
    match f
    case Numeric => if n >= 3 then DecimalType else if n == 2 then FloatType else IntegerType
    case Temporal =>
      if n >= 4 then DurationType else if n == 3 then DatetimeType
      else if n == 2 then DateType else TimeType
    case Categorical => if n >= 3 then StringType else if n == 2 then CategoricalType else BooleanType
  }

  function Max(a: nat, b: nat): nat
  {
    if a < b then b else a
  }

  /** Both types belong to the same scalar family. */
  predicate SameFamily(t1: DataType, t2: DataType)
  {
    (IsInstance(t1, CNumeric) && IsInstance(t2, CNumeric)) ||
    (IsInstance(t1, CTemporal) && IsInstance(t2, CTemporal)) ||
    (IsInstance(t1, CCategorical) && IsInstance(t2, CCategorical))
  }

  /** A scalar rule applies exactly to two types of one family, and never yields BinaryType. */
  lemma ScalarRuleApplies(t1: DataType, t2: DataType)
    ensures ScalarRule(t1, t2).Some? <==> SameFamily(t1, t2)
  {
    if SameFamily(t1, t2) {
      ScalarRuleWithin(t1, t2);
    } else {
      ScalarRuleOutside(t1, t2);
    }
  }

  lemma ScalarRuleWithin(t1: DataType, t2: DataType)
    requires SameFamily(t1, t2)
    ensures ScalarRule(t1, t2).Some?
  {
    if IsInstance(t1, CNumeric) && IsInstance(t2, CNumeric) {
      ScalarRuleNumeric(t1, t2);
    } else if IsInstance(t1, CTemporal) && IsInstance(t2, CTemporal) {
      ScalarRuleTemporal(t1, t2);
    } else {
      ScalarRuleCategorical(t1, t2);
    }
  }

  lemma ScalarRuleOutside(t1: DataType, t2: DataType)
    requires !SameFamily(t1, t2)
    ensures ScalarRule(t1, t2) == None
  {
  }

  lemma ScalarRuleNotBinary(t1: DataType, t2: DataType)
    ensures ScalarRule(t1, t2) != Some(BinaryType)
  {
    if SameFamily(t1, t2) {
      var f := if IsInstance(t1, CNumeric) && IsInstance(t2, CNumeric) then Numeric
               else if IsInstance(t1, CTemporal) && IsInstance(t2, CTemporal) then Temporal
               else Categorical;
      ScalarRuleInFamily(t1, t2, f);
      AtRankNotBinary(f, Max(Rank(t1), Rank(t2)));
    } else {
      ScalarRuleOutside(t1, t2);
    }
  }

  /** The rule for two types of one family picks the wider of the two within it. */
  lemma ScalarRuleInFamily(t1: DataType, t2: DataType, f: Category)
    requires f != Nested && SameFamily(t1, t2)
    requires f == Numeric <==> IsInstance(t1, CNumeric) && IsInstance(t2, CNumeric)
    requires f == Temporal <==> !(IsInstance(t1, CNumeric) && IsInstance(t2, CNumeric)) &&
                                IsInstance(t1, CTemporal) && IsInstance(t2, CTemporal)
    ensures ScalarRule(t1, t2) == Some(AtRank(f, Max(Rank(t1), Rank(t2))))
  {
    if f == Numeric {
      ScalarRuleNumeric(t1, t2);
    } else if f == Temporal {
      ScalarRuleTemporal(t1, t2);
    } else {
      ScalarRuleCategorical(t1, t2);
    }
  }

  lemma AtRankNotBinary(f: Category, n: nat)
    requires f != Nested
    ensures AtRank(f, n) != BinaryType
  {
  }

  lemma ScalarRuleNumeric(t1: DataType, t2: DataType)
    requires IsInstance(t1, CNumeric) && IsInstance(t2, CNumeric)
    ensures ScalarRule(t1, t2) == Some(AtRank(Numeric, Max(Rank(t1), Rank(t2))))
  {
    FamilyInstances(t1);
    FamilyInstances(t2);
  }

  lemma ScalarRuleTemporal(t1: DataType, t2: DataType)
    requires IsInstance(t1, CTemporal) && IsInstance(t2, CTemporal)
    ensures ScalarRule(t1, t2) == Some(AtRank(Temporal, Max(Rank(t1), Rank(t2))))
  {
    FamilyInstances(t1);
    FamilyInstances(t2);
    LeafInstance(t1, CDuration);
    LeafInstance(t2, CDuration);
    LeafInstance(t1, CDatetime);
    LeafInstance(t2, CDatetime);
    LeafInstance(t1, CDate);
    LeafInstance(t2, CDate);
  }

  lemma ScalarRuleCategorical(t1: DataType, t2: DataType)
    requires IsInstance(t1, CCategorical) && IsInstance(t2, CCategorical)
    ensures ScalarRule(t1, t2) == Some(AtRank(Categorical, Max(Rank(t1), Rank(t2))))
  {
    FamilyInstances(t1);
    FamilyInstances(t2);
    LeafInstance(t1, CString);
    LeafInstance(t2, CString);
    LeafInstance(t1, CBoolean);
    LeafInstance(t2, CBoolean);
  }

  /** Numeric types promote to the wider of the two (Integer < Float < Decimal), in either order. */
  lemma PromoteNumeric(t1: DataType, t2: DataType)
    requires IsInstance(t1, CNumeric) && IsInstance(t2, CNumeric)
    ensures PromoteTypes(t1, t2) == Ok(AtRank(Numeric, Max(Rank(t1), Rank(t2))))
    ensures PromoteTypes(t1, t2) == PromoteTypes(t2, t1)
  {
    FamilyInstances(t1);
    FamilyInstances(t2);
    ScalarRuleNumeric(t1, t2);
    ScalarRuleNumeric(t2, t1);
    ScalarRuleDecides(t1, t2);
    ScalarRuleDecides(t2, t1);
  }

  /** Temporal types promote to the wider of the two (Time < Date < Datetime < Duration). */
  lemma PromoteTemporal(t1: DataType, t2: DataType)
    requires IsInstance(t1, CTemporal) && IsInstance(t2, CTemporal)
    ensures PromoteTypes(t1, t2) == Ok(AtRank(Temporal, Max(Rank(t1), Rank(t2))))
    ensures PromoteTypes(t1, t2) == PromoteTypes(t2, t1)
  {
    FamilyInstances(t1);
    FamilyInstances(t2);
    ScalarRuleTemporal(t1, t2);
    ScalarRuleTemporal(t2, t1);
    ScalarRuleDecides(t1, t2);
    ScalarRuleDecides(t2, t1);
  }

  /** Categorical types promote to StringType if either is one, to BooleanType if both are,
      and to CategoricalType otherwise: the ranking Boolean < Categorical, Binary < String. */
  lemma PromoteCategorical(t1: DataType, t2: DataType)
    requires IsInstance(t1, CCategorical) && IsInstance(t2, CCategorical)
    ensures PromoteTypes(t1, t2) == Ok(AtRank(Categorical, Max(Rank(t1), Rank(t2))))
    ensures PromoteTypes(t1, t2) == PromoteTypes(t2, t1)
  {
    FamilyInstances(t1);
    FamilyInstances(t2);
    ScalarRuleCategorical(t1, t2);
    ScalarRuleCategorical(t2, t1);
    ScalarRuleDecides(t1, t2);
    ScalarRuleDecides(t2, t1);
  }

  /** The null kinds absorb: a null on the left yields the right type, a null on the right
      yields the left type. */
  lemma PromoteNull(t1: DataType, t2: DataType)
    ensures IsNullKind(t1) ==> PromoteTypes(t1, t2) == Ok(t2)
    ensures IsNullKind(t2) && !IsNullKind(t1) ==> PromoteTypes(t1, t2) == Ok(t1)
  {
  }

  /** Apart from nulls, lists and structs, two types promote exactly when they are of the same
      scalar family: mixed families, the abstract `DataType` and `NestedType`, and `BaseNullType`
      raise DataTypeError. */
  lemma PromoteScalars(t1: DataType, t2: DataType)
    requires !IsNullKind(t1) && !IsNullKind(t2)
    requires !(t1.ListType? && t2.ListType?) && !(t1.StructType? && t2.StructType?)
    ensures CanCast(t1, t2) <==> SameFamily(t1, t2)
    ensures !SameFamily(t1, t2) ==> PromoteTypes(t1, t2) == Err(DataTypeError)
  {
    ScalarRuleApplies(t1, t2);
    if SameFamily(t1, t2) {
      ScalarRuleDecides(t1, t2);
    } else {
      PromoteMixed(t1, t2);
    }
  }

  lemma PromoteMixed(t1: DataType, t2: DataType)
    requires !IsNullKind(t1) && !IsNullKind(t2)
    requires !(t1.ListType? && t2.ListType?) && !(t1.StructType? && t2.StructType?)
    requires !SameFamily(t1, t2)
    ensures PromoteTypes(t1, t2) == Err(DataTypeError)
  {
    ScalarRuleApplies(t1, t2);
    if IsInstance(t1, CBinary) { InstanceOfParent(t1, CBinary); }
    if IsInstance(t2, CBinary) { InstanceOfParent(t2, CBinary); }
    NoRuleApplies(t1, t2);
  }

  lemma NoRuleApplies(t1: DataType, t2: DataType)
    requires !IsNullKind(t1) && !IsNullKind(t2)
    requires !(t1.ListType? && t2.ListType?) && !(t1.StructType? && t2.StructType?)
    requires ScalarRule(t1, t2) == None
    requires !(IsInstance(t1, CBinary) && IsInstance(t2, CBinary))
    ensures PromoteTypes(t1, t2) == Err(DataTypeError)
  {
  }

  /** When a scalar rule applies (and neither side is null) it decides the promotion. */
  lemma ScalarRuleDecides(t1: DataType, t2: DataType)
    requires !IsNullKind(t1) && !IsNullKind(t2) && ScalarRule(t1, t2).Some?
    ensures PromoteTypes(t1, t2) == Ok(ScalarRule(t1, t2).value)
  {
  }

  /** Two list types (neither a null) promote element-wise. */
  lemma PromoteLists(t1: DataType, t2: DataType)
    requires t1.ListType? && t2.ListType?
    ensures PromoteTypes(t1, t2).Ok? <==> PromoteTypes(t1.innerType, t2.innerType).Ok?
    ensures PromoteTypes(t1, t2).Ok? ==>
              PromoteTypes(t1, t2).value == ListType(PromoteTypes(t1.innerType, t2.innerType).value)
  {
    ScalarRuleApplies(t1, t2);
    FamilyInstances(t1);
  }

  /** Two struct types go to the struct rule. */
  lemma PromoteStructsRule(t1: DataType, t2: DataType)
    requires t1.StructType? && t2.StructType?
    ensures PromoteTypes(t1, t2) == PromoteStructs(t1, t2)
  {
    ScalarRuleApplies(t1, t2);
    FamilyInstances(t1);
  }

  /** The BinaryType rule is never reached: BinaryType is a CategoricalType, so two binaries
      promote to CategoricalType, and BinaryType comes out only when a null is on one side. */
  lemma BinaryRuleUnreachable(t1: DataType, t2: DataType)
    ensures PromoteTypes(t1, t2) == Ok(BinaryType) ==> IsNullKind(t1) || IsNullKind(t2)
  {
    if !IsNullKind(t1) && !IsNullKind(t2) {
      if SameFamily(t1, t2) {
        ScalarRuleWithin(t1, t2);
        ScalarRuleNotBinary(t1, t2);
        ScalarRuleDecides(t1, t2);
      } else if t1.ListType? && t2.ListType? {
        PromoteLists(t1, t2);
      } else if t1.StructType? && t2.StructType? {
        PromoteStructsRule(t1, t2);
      } else {
        PromoteMixed(t1, t2);
      }
    }
  }

  /** A struct promotes exactly when every key of either side promotes. */
  lemma PromoteStructOk(f1: seq<(string, DataType)>, f2: seq<(string, DataType)>)
    ensures PromoteTypes(StructType(f1), StructType(f2)).Ok? <==>
            forall k :: HasKey(f1, k) || HasKey(f2, k) ==>
                          PromoteTypes(FieldOrNull(f1, k), FieldOrNull(f2, k)).Ok?
  {
    var t1, t2 := StructType(f1), StructType(f2);
    PromoteStructsRule(t1, t2);
    var keys := UnionKeys(f1, f2);
    var rs := FieldPromotions(t1, t2, keys);
    assert PromoteStructs(t1, t2).Ok? <==> Sequence(rs).Ok?;
    forall k | HasKey(f1, k) || HasKey(f2, k)
      ensures exists i :: 0 <= i < |keys| && keys[i] == k
    {
    }
  }

  /** The promoted struct holds each key of either side once, with the promotion of the two
      field types (`NestedNullType` where a side lacks the key). */
  lemma PromoteStructFields(f1: seq<(string, DataType)>, f2: seq<(string, DataType)>)
    requires PromoteTypes(StructType(f1), StructType(f2)).Ok?
    ensures var r := PromoteTypes(StructType(f1), StructType(f2)).value;
            r.StructType? && Distinct(Keys(r.fields)) &&
            (forall k :: HasKey(r.fields, k) <==> HasKey(f1, k) || HasKey(f2, k)) &&
            (forall k :: HasKey(r.fields, k) ==>
               PromoteTypes(FieldOrNull(f1, k), FieldOrNull(f2, k)) == Ok(Get(r.fields, k).value))
  {
    var t1, t2 := StructType(f1), StructType(f2);
    PromoteStructsRule(t1, t2);
    var keys := UnionKeys(f1, f2);
    var rs := FieldPromotions(t1, t2, keys);
    var ts := Sequence(rs).value;
    var fields := Zip(keys, ts);
    assert PromoteStructs(t1, t2) == Ok(StructType(fields));
    KeysMembership(fields);
    forall k | HasKey(fields, k)
      ensures PromoteTypes(FieldOrNull(f1, k), FieldOrNull(f2, k)) == Ok(Get(fields, k).value)
    {
      var i :| 0 <= i < |keys| && keys[i] == k;
      assert fields[i].0 == k;
      GetDistinct(fields, i);
      assert rs[i] == PromoteField(t1, t2, k);
    }
  }

  /** `can_cast` is symmetric, although promotion itself is not (nulls, key order). */
  lemma {:induction false} CanCastSymmetric(t1: DataType, t2: DataType)
    ensures CanCast(t1, t2) <==> CanCast(t2, t1)
    decreases Size(t1) + Size(t2), 1
  {
    if IsNullKind(t1) || IsNullKind(t2) {
      CanCastSymmetricNull(t1, t2);
    } else if SameFamily(t1, t2) {
      CanCastSymmetricFamily(t1, t2);
    } else if t1.ListType? && t2.ListType? {
      PromoteLists(t1, t2);
      PromoteLists(t2, t1);
      CanCastSymmetric(t1.innerType, t2.innerType);
    } else if t1.StructType? && t2.StructType? {
      CanCastSymmetricStructs(t1, t2);
    } else {
      CanCastSymmetricMixed(t1, t2);
    }
  }

  lemma CanCastSymmetricNull(t1: DataType, t2: DataType)
    requires IsNullKind(t1) || IsNullKind(t2)
    ensures CanCast(t1, t2) && CanCast(t2, t1)
  {
    PromoteNull(t1, t2);
    PromoteNull(t2, t1);
  }

  lemma CanCastSymmetricFamily(t1: DataType, t2: DataType)
    requires !IsNullKind(t1) && !IsNullKind(t2) && SameFamily(t1, t2)
    ensures CanCast(t1, t2) && CanCast(t2, t1)
  {
    ScalarRuleApplies(t1, t2);
    ScalarRuleApplies(t2, t1);
    ScalarRuleDecides(t1, t2);
    ScalarRuleDecides(t2, t1);
  }

  lemma CanCastSymmetricMixed(t1: DataType, t2: DataType)
    requires !IsNullKind(t1) && !IsNullKind(t2) && !SameFamily(t1, t2)
    requires !(t1.ListType? && t2.ListType?) && !(t1.StructType? && t2.StructType?)
    ensures !CanCast(t1, t2) && !CanCast(t2, t1)
  {
    PromoteScalars(t1, t2);
    PromoteScalars(t2, t1);
  }

  lemma {:induction false} CanCastSymmetricStructs(t1: DataType, t2: DataType)
    requires t1.StructType? && t2.StructType?
    ensures CanCast(t1, t2) <==> CanCast(t2, t1)
    decreases Size(t1) + Size(t2), 0
  {
    PromoteStructOk(t1.fields, t2.fields);
    PromoteStructOk(t2.fields, t1.fields);
    forall k | HasKey(t1.fields, k) || HasKey(t2.fields, k)
      ensures CanCast(FieldOrNull(t1.fields, k), FieldOrNull(t2.fields, k)) <==>
              CanCast(FieldOrNull(t2.fields, k), FieldOrNull(t1.fields, k))
    {
      FieldOrNullSmaller(t1.fields, k);
      FieldOrNullSmaller(t2.fields, k);
      CanCastSymmetric(FieldOrNull(t1.fields, k), FieldOrNull(t2.fields, k));
    }
  }

  /** The types promotion leaves as they are: concrete scalar classes (BinaryType excepted),
      the null kinds, and lists and structs (with distinct keys) of such types. */
  predicate Settled(t: DataType)
  {
    match t
    case IntegerType | FloatType | DecimalType => true
    case DateType | DatetimeType | TimeType | DurationType => true
    case CategoricalType | BooleanType | StringType => true
    case NumericNullType | TemporalNullType | CategoricalNullType | NestedNullType => true
    case ListType(inner) => Settled(inner)
    case StructType(fields) =>
      Distinct(Keys(fields)) && forall i :: 0 <= i < |fields| ==> Settled(fields[i].1)
    case _ => false
  }

  /** A settled scalar type promotes with itself to itself. */
  lemma PromoteSettledScalar(t: DataType)
    requires Settled(t) && !t.ListType? && !t.StructType?
    ensures PromoteTypes(t, t) == Ok(t)
  {
    match t
    case NumericNullType | TemporalNullType | CategoricalNullType | NestedNullType =>
      PromoteNull(t, t);
    case IntegerType | FloatType | DecimalType =>
      PromoteNumeric(t, t);
    case DateType | DatetimeType | TimeType | DurationType =>
      PromoteTemporal(t, t);
    case CategoricalType | BooleanType | StringType =>
      PromoteCategorical(t, t);
    case _ =>
      assert false;
  }

  /** Promoting a settled type with itself gives it back. */
  lemma {:induction false} PromoteIdempotent(t: DataType)
    requires Settled(t)
    ensures PromoteTypes(t, t) == Ok(t)
    decreases t, 3
  {
    match t
    case ListType(inner) =>
      PromoteIdempotent(inner);
      PromoteLists(t, t);
    case StructType(fields) =>
      PromoteStructIdempotent(fields);
    case _ =>
      PromoteSettledScalar(t);
  }

  lemma {:induction false} PromoteStructIdempotent(fields: seq<(string, DataType)>)
    requires Settled(StructType(fields))
    ensures PromoteTypes(StructType(fields), StructType(fields)) == Ok(StructType(fields))
    decreases StructType(fields), 2
  {
    PromoteStructsRule(StructType(fields), StructType(fields));
    PromoteStructsSelf(fields);
  }

  lemma {:induction false} PromoteStructsSelf(fields: seq<(string, DataType)>)
    requires Settled(StructType(fields))
    ensures PromoteStructs(StructType(fields), StructType(fields)) == Ok(StructType(fields))
    decreases StructType(fields), 1
  {
    var t := StructType(fields);
    var keys := UnionKeys(fields, fields);
    UnionKeysSelf(fields);
    var rs := FieldPromotions(t, t, keys);
    forall i | 0 <= i < |keys|
      ensures rs[i] == Ok(fields[i].1)
    {
      PromoteFieldSelf(fields, i);
    }
    var vs := Dicts.Values(fields);
    SequenceAllOk(rs, vs);
    ZipKeysValues(fields);
  }

  lemma {:induction false} PromoteFieldSelf(fields: seq<(string, DataType)>, i: nat)
    requires Settled(StructType(fields)) && i < |fields|
    ensures PromoteField(StructType(fields), StructType(fields), fields[i].0) == Ok(fields[i].1)
    decreases StructType(fields), 0
  {
    GetDistinct(fields, i);
    assert FieldOrNull(fields, fields[i].0) == fields[i].1;
    assert fields[i].1 < StructType(fields);
    PromoteIdempotent(fields[i].1);
  }

  lemma UnionKeysSelf(fields: seq<(string, DataType)>)
    requires Distinct(Keys(fields))
    ensures UnionKeys(fields, fields) == Keys(fields)
  {
    DedupDistinct(Keys(fields));
    DedupAbsorbs(Keys(fields), Keys(fields));
  }

  /** The abstract `NumericType` and `TemporalType`, and BinaryType, are not settled: each
      promotes with itself to another class. */
  lemma PromoteAbstractTypes()
    ensures PromoteTypes(BinaryType, BinaryType) == Ok(CategoricalType)
    ensures PromoteTypes(NumericType, NumericType) == Ok(IntegerType)
    ensures PromoteTypes(TemporalType, TemporalType) == Ok(TimeType)
  {
    PromoteBinarySelf();
    PromoteNumericSelf();
    PromoteTemporalSelf();
  }

  lemma PromoteBinarySelf()
    ensures PromoteTypes(BinaryType, BinaryType) == Ok(CategoricalType)
  {
    PromoteCategorical(BinaryType, BinaryType);
  }

  lemma PromoteNumericSelf()
    ensures PromoteTypes(NumericType, NumericType) == Ok(IntegerType)
  {
    PromoteNumeric(NumericType, NumericType);
  }

  lemma PromoteTemporalSelf()
    ensures PromoteTypes(TemporalType, TemporalType) == Ok(TimeType)
  {
    PromoteTemporal(TemporalType, TemporalType);
  }

  /** `DataType`, `NestedType` and `BaseNullType` have no rule, not even with themselves. */
  lemma PromoteWithoutRule()
    ensures PromoteTypes(DataTypeBase, DataTypeBase) == Err(DataTypeError)
    ensures PromoteTypes(NestedType, NestedType) == Err(DataTypeError)
    ensures PromoteTypes(BaseNullType, BaseNullType) == Err(DataTypeError)
  {
    NoRuleForSelf(DataTypeBase);
    NoRuleForSelf(NestedType);
    NoRuleForSelf(BaseNullType);
  }

  lemma NoRuleForSelf(t: DataType)
    requires t.DataTypeBase? || t.NestedType? || t.BaseNullType?
    ensures PromoteTypes(t, t) == Err(DataTypeError)
  {
    ScalarRuleApplies(t, t);
    NoRuleApplies(t, t);
  }

  // ---------------------------------------------------------------------------------------
  // cast_value

  /** `TypeCast.cast_value(value, target_type)`. `int()`, `float()`, `Decimal()` and the two
      `strptime` formats are the library routines of `lib`. */
  function CastValue(lib: Lib, v: Value, t: DataType): (r: Result<Value>)
    decreases t, 1
  {
    if v.PyNone? then
      if IsInstance(t, CNumeric) || IsInstance(t, CTemporal) || IsInstance(t, CCategorical) ||
         t.ListType? || t.StructType?
      then Ok(PyNone)
      else Err(ConversionError)
    else if IsInstance(t, CInteger) then
      match lib.toInt(v)
      case Ok(i) => Ok(PyInt(i))
      case Err(e) => Err(e)
    else if IsInstance(t, CFloat) then
      match lib.toFloat(v)
      case Ok(f) => Ok(PyFloat(f))
      case Err(e) => Err(e)
    else if IsInstance(t, CDecimal) then
      match lib.toDecimal(v)
      case Ok(d) => Ok(PyDecimal(d))
      case Err(e) => Err(e)
    else if IsInstance(t, CBoolean) then
      if v.PyStr? && Lower(v.s) in {"true", "1"} then Ok(PyBool(true))
      else if v.PyStr? && Lower(v.s) in {"false", "0"} then Ok(PyBool(false))
      else Ok(PyBool(Truthy(v)))
    else if IsInstance(t, CString) then Ok(PyStr(Str(v)))
    else if IsInstance(t, CDate) then
      if !v.PyStr? then Err(TypeError)
      else
        match lib.parseYmd(v.s)
        case Some(d) => Ok(PyDate(d))
        case None => Err(ValueError)
    else if IsInstance(t, CDatetime) then
      if !v.PyStr? then Err(TypeError)
      else
        match lib.parseYmdHms(v.s)
        case Some(d) => Ok(PyDatetime(d))
        case None => Err(ValueError)
    else if t.ListType? then
      if !v.PyList? then Err(ConversionError)
      else
        match Sequence(CastItems(lib, v.items, t.innerType))
        case Ok(items) => Ok(PyList(items))
        case Err(e) => Err(e)
    else if t.StructType? then
      if !v.PyDict? then Err(ConversionError)
      else
        match Sequence(CastFields(lib, v.entries, t.fields))
        case Ok(vs) => Ok(PyDict(FromPairs(Zip(Keys(t.fields), vs))))
        case Err(e) => Err(e)
    else Err(ConversionError)
  }

  /** The list comprehension of the list rule: each item cast to the inner type. */
  function CastItems(lib: Lib, items: seq<Value>, inner: DataType): (rs: seq<Result<Value>>)
    ensures |rs| == |items|
    ensures forall i :: 0 <= i < |items| ==> rs[i] == CastValue(lib, items[i], inner)
    decreases ListType(inner), 0
  {
    seq(|items|, i requires 0 <= i < |items| => CastValue(lib, items[i], inner))
  }

  /** The dict comprehension of the struct rule: each field cast from the dict's entry under its
      key, or from None. */
  function CastFields(lib: Lib, entries: seq<(string, Value)>, fields: seq<(string, DataType)>)
    : (rs: seq<Result<Value>>)
    ensures |rs| == |fields|
    ensures forall i :: 0 <= i < |fields| ==>
              rs[i] == CastValue(lib, GetOr(entries, fields[i].0, PyNone), fields[i].1)
    decreases StructType(fields), 0
  {
    seq(|fields|, i requires 0 <= i < |fields| => CastValue(lib, GetOr(entries, fields[i].0, PyNone), fields[i].1))
  }

  /** None casts to None for every scalar family, list and struct, and fails for the rest: the
      abstract `DataType` and `NestedType`, and the whole null family. */
  lemma CastNone(lib: Lib, t: DataType)
    ensures CastValue(lib, PyNone, t).Ok? <==>
            !(t.DataTypeBase? || t.NestedType? || t.BaseNullType? || IsNullKind(t))
    ensures CastValue(lib, PyNone, t) == Ok(PyNone) || CastValue(lib, PyNone, t) == Err(ConversionError)
  {
    FamilyInstances(t);
  }

  /** A value other than None cannot be cast to a type without a rule: the abstract classes, the
      null family, TimeType, DurationType, and BinaryType. */
  lemma CastUnsupported(lib: Lib, v: Value, t: DataType)
    requires !v.PyNone?
    requires t.DataTypeBase? || t.NumericType? || t.TemporalType? || t.CategoricalType? ||
             t.NestedType? || t.BaseNullType? || IsNullKind(t) ||
             t.TimeType? || t.DurationType? || t.BinaryType?
    ensures CastValue(lib, v, t) == Err(ConversionError)
  {
    CastWithoutRule(lib, v, t);
  }

  /** A value other than None and a type of none of the classes `cast_value` has a branch for. */
  lemma CastWithoutRule(lib: Lib, v: Value, t: DataType)
    requires !v.PyNone? && !t.ListType? && !t.StructType?
    requires ClassOf(t) !in {CInteger, CFloat, CDecimal, CBoolean, CString, CDate, CDatetime}
    ensures CastValue(lib, v, t) == Err(ConversionError)
  {
    LeafInstance(t, CInteger);
    LeafInstance(t, CFloat);
    LeafInstance(t, CDecimal);
    LeafInstance(t, CBoolean);
    LeafInstance(t, CString);
    LeafInstance(t, CDate);
    LeafInstance(t, CDatetime);
  }

  /** Casting to BooleanType never fails, and a value other than None becomes a bool: the strings
      "true"/"1" and "false"/"0" in any letter case are read as words, anything else by its truth. */
  lemma CastBoolean(lib: Lib, v: Value)
    ensures CastValue(lib, v, BooleanType).Ok?
    ensures v.PyNone? ==> CastValue(lib, v, BooleanType).value == PyNone
    ensures !v.PyNone? ==> CastValue(lib, v, BooleanType).value.PyBool?
  {
    if !v.PyNone? {
      CastToBoolean(lib, v);
    }
  }

  /** The boolean rule for a value other than None. */
  lemma CastToBoolean(lib: Lib, v: Value)
    requires !v.PyNone?
    ensures CastValue(lib, v, BooleanType) ==
            if v.PyStr? && Lower(v.s) in {"true", "1"} then Ok(PyBool(true))
            else if v.PyStr? && Lower(v.s) in {"false", "0"} then Ok(PyBool(false))
            else Ok(PyBool(Truthy(v)))
  {
    LeafInstance(BooleanType, CInteger);
    LeafInstance(BooleanType, CFloat);
    LeafInstance(BooleanType, CDecimal);
  }

  /** `"TRUE"` is read as the word true, `"0"` as false, `"no"` by its truth (a non-empty string
      is true), and the number 0 by its truth. */
  lemma CastBooleanExamples(lib: Lib)
    ensures CastValue(lib, PyStr("TRUE"), BooleanType) == Ok(PyBool(true))
    ensures CastValue(lib, PyStr("0"), BooleanType) == Ok(PyBool(false))
    ensures CastValue(lib, PyStr("no"), BooleanType) == Ok(PyBool(true))
    ensures CastValue(lib, PyInt(0), BooleanType) == Ok(PyBool(false))
  {
    CastTrueWord(lib);
    CastZeroWord(lib);
    CastOtherWord(lib);
    CastToBoolean(lib, PyInt(0));
  }

  lemma CastTrueWord(lib: Lib)
    ensures CastValue(lib, PyStr("TRUE"), BooleanType) == Ok(PyBool(true))
  {
    CastToBoolean(lib, PyStr("TRUE"));
    assert Lower("TRUE") == "true";
  }

  lemma CastZeroWord(lib: Lib)
    ensures CastValue(lib, PyStr("0"), BooleanType) == Ok(PyBool(false))
  {
    CastToBoolean(lib, PyStr("0"));
    assert Lower("0") == "0";
  }

  lemma CastOtherWord(lib: Lib)
    ensures CastValue(lib, PyStr("no"), BooleanType) == Ok(PyBool(true))
  {
    CastToBoolean(lib, PyStr("no"));
    assert Lower("no") == "no";
    assert "no" != "true" && "no" != "false";
  }

  /** The string rule for a value other than None: `str(value)`. */
  lemma CastToString(lib: Lib, v: Value)
    requires !v.PyNone?
    ensures CastValue(lib, v, StringType) == Ok(PyStr(Str(v)))
  {
    StringTypeClass();
  }

  /** `StringType` is an instance of `StringType` and of none of the classes tried before it. */
  lemma StringTypeClass()
    ensures IsInstance(StringType, CString)
    ensures !IsInstance(StringType, CInteger) && !IsInstance(StringType, CFloat)
    ensures !IsInstance(StringType, CDecimal) && !IsInstance(StringType, CBoolean)
  {
    LeafInstance(StringType, CInteger);
    LeafInstance(StringType, CFloat);
    LeafInstance(StringType, CDecimal);
    LeafInstance(StringType, CBoolean);
  }

  /** A bool cast to a string and back is the same bool. */
  lemma CastBoolRoundTrip(lib: Lib, b: bool)
    ensures CastValue(lib, PyBool(b), StringType).Ok?
    ensures CastValue(lib, CastValue(lib, PyBool(b), StringType).value, BooleanType) == Ok(PyBool(b))
  {
    CastToString(lib, PyBool(b));
    if b {
      BoolWordTrue(lib);
    } else {
      BoolWordFalse(lib);
    }
  }

  lemma BoolWordTrue(lib: Lib)
    ensures CastValue(lib, PyStr(Str(PyBool(true))), BooleanType) == Ok(PyBool(true))
  {
    assert Str(PyBool(true)) == "True";
    CastToBoolean(lib, PyStr("True"));
    assert Lower("True") == "true";
  }

  lemma BoolWordFalse(lib: Lib)
    ensures CastValue(lib, PyStr(Str(PyBool(false))), BooleanType) == Ok(PyBool(false))
  {
    assert Str(PyBool(false)) == "False";
    CastToBoolean(lib, PyStr("False"));
    assert Lower("False") == "false";
    assert "false" != "true" && "false" != "1";
  }

  /** Casting to a string is `str` and is idempotent; a string casts to itself. */
  lemma CastStringIdempotent(lib: Lib, v: Value)
    requires !v.PyNone?
    ensures CastValue(lib, v, StringType) == Ok(PyStr(Str(v)))
    ensures CastValue(lib, CastValue(lib, v, StringType).value, StringType) == CastValue(lib, v, StringType)
    ensures v.PyStr? ==> CastValue(lib, v, StringType) == Ok(v)
  {
    CastToString(lib, v);
    CastToString(lib, PyStr(Str(v)));
  }

  /** A numeric target calls `int`, `float` or `Decimal` on a value other than None: the cast
      succeeds exactly when the constructor does, and the constructor's error escapes. */
  lemma CastNumeric(lib: Lib, v: Value)
    requires !v.PyNone?
    ensures CastValue(lib, v, IntegerType).Ok? <==> lib.toInt(v).Ok?
    ensures lib.toInt(v).Ok? ==> CastValue(lib, v, IntegerType) == Ok(PyInt(lib.toInt(v).value))
    ensures lib.toInt(v).Err? ==> CastValue(lib, v, IntegerType) == Err(lib.toInt(v).error)
    ensures CastValue(lib, v, FloatType).Ok? <==> lib.toFloat(v).Ok?
    ensures lib.toFloat(v).Ok? ==> CastValue(lib, v, FloatType) == Ok(PyFloat(lib.toFloat(v).value))
    ensures lib.toFloat(v).Err? ==> CastValue(lib, v, FloatType) == Err(lib.toFloat(v).error)
    ensures CastValue(lib, v, DecimalType).Ok? <==> lib.toDecimal(v).Ok?
    ensures lib.toDecimal(v).Ok? ==> CastValue(lib, v, DecimalType) == Ok(PyDecimal(lib.toDecimal(v).value))
    ensures lib.toDecimal(v).Err? ==> CastValue(lib, v, DecimalType) == Err(lib.toDecimal(v).error)
  {
    LeafInstance(IntegerType, CInteger);
    LeafInstance(FloatType, CInteger);
    LeafInstance(FloatType, CFloat);
    LeafInstance(DecimalType, CInteger);
    LeafInstance(DecimalType, CFloat);
    LeafInstance(DecimalType, CDecimal);
  }

  /** A Date target reads only `%Y-%m-%d` and a Datetime target only `%Y-%m-%d %H:%M:%S`; text
      in neither raises ValueError. */
  lemma CastTemporalText(lib: Lib, s: string)
    ensures CastValue(lib, PyStr(s), DateType) ==
              if lib.parseYmd(s).Some? then Ok(PyDate(lib.parseYmd(s).value)) else Err(ValueError)
    ensures CastValue(lib, PyStr(s), DatetimeType) ==
              if lib.parseYmdHms(s).Some? then Ok(PyDatetime(lib.parseYmdHms(s).value)) else Err(ValueError)
  {
    LeafInstance(DateType, CInteger);
    LeafInstance(DateType, CFloat);
    LeafInstance(DateType, CDecimal);
    LeafInstance(DateType, CBoolean);
    LeafInstance(DateType, CString);
    LeafInstance(DateType, CDate);
    LeafInstance(DatetimeType, CInteger);
    LeafInstance(DatetimeType, CFloat);
    LeafInstance(DatetimeType, CDecimal);
    LeafInstance(DatetimeType, CBoolean);
    LeafInstance(DatetimeType, CString);
    LeafInstance(DatetimeType, CDate);
    LeafInstance(DatetimeType, CDatetime);
  }

  /** A date or datetime is parsed from a string only; other values raise TypeError. */
  lemma CastTemporalNeedsString(lib: Lib, v: Value)
    requires !v.PyNone? && !v.PyStr?
    ensures CastValue(lib, v, DateType) == Err(TypeError)
    ensures CastValue(lib, v, DatetimeType) == Err(TypeError)
  {
  }

  /** A list type goes to the list rule. */
  lemma CastListRule(lib: Lib, v: Value, inner: DataType)
    requires !v.PyNone?
    ensures CastValue(lib, v, ListType(inner)) ==
            if !v.PyList? then Err(ConversionError)
            else match Sequence(CastItems(lib, v.items, inner))
                 case Ok(items) => Ok(PyList(items))
                 case Err(e) => Err(e)
  {
    NestedNotScalar(ListType(inner));
  }

  /** A struct type goes to the struct rule. */
  lemma CastStructRule(lib: Lib, v: Value, fields: seq<(string, DataType)>)
    requires !v.PyNone?
    ensures CastValue(lib, v, StructType(fields)) ==
            if !v.PyDict? then Err(ConversionError)
            else match Sequence(CastFields(lib, v.entries, fields))
                 case Ok(vs) => Ok(PyDict(FromPairs(Zip(Keys(fields), vs))))
                 case Err(e) => Err(e)
  {
    NestedNotScalar(StructType(fields));
  }

  /** A list or struct type is an instance of none of the scalar classes `cast_value` tries first. */
  lemma NestedNotScalar(t: DataType)
    requires t.ListType? || t.StructType?
    ensures !IsInstance(t, CInteger) && !IsInstance(t, CFloat) && !IsInstance(t, CDecimal)
    ensures !IsInstance(t, CBoolean) && !IsInstance(t, CString)
    ensures !IsInstance(t, CDate) && !IsInstance(t, CDatetime)
  {
    LeafInstance(t, CInteger);
    LeafInstance(t, CFloat);
    LeafInstance(t, CDecimal);
    LeafInstance(t, CBoolean);
    LeafInstance(t, CString);
    LeafInstance(t, CDate);
    LeafInstance(t, CDatetime);
  }

  lemma CastList(lib: Lib, v: Value, inner: DataType)
    requires !v.PyNone?
    ensures !v.PyList? ==> CastValue(lib, v, ListType(inner)) == Err(ConversionError)
    ensures v.PyList? ==>
              (CastValue(lib, v, ListType(inner)).Ok? <==>
                 forall i :: 0 <= i < |v.items| ==> CastValue(lib, v.items[i], inner).Ok?)
    ensures v.PyList? && CastValue(lib, v, ListType(inner)).Ok? ==>
              var out := CastValue(lib, v, ListType(inner)).value;
              out.PyList? && |out.items| == |v.items| &&
              forall i :: 0 <= i < |v.items| ==> out.items[i] == CastValue(lib, v.items[i], inner).value
  {
    CastListRule(lib, v, inner);
  }

  /** Casting to a struct type keeps exactly the struct's fields, in order: each field is cast from
      the dict's entry under that key, or from None when the dict lacks it; other keys are dropped. */
  lemma CastStruct(lib: Lib, entries: seq<(string, Value)>, fields: seq<(string, DataType)>)
    requires Distinct(Keys(fields))
    ensures var r := CastValue(lib, PyDict(entries), StructType(fields));
            r.Ok? <==> forall i :: 0 <= i < |fields| ==>
                         CastValue(lib, GetOr(entries, fields[i].0, PyNone), fields[i].1).Ok?
    ensures var r := CastValue(lib, PyDict(entries), StructType(fields));
            r.Ok? ==> r.value.PyDict? && Keys(r.value.entries) == Keys(fields) &&
                      forall i :: 0 <= i < |fields| ==>
                        r.value.entries[i].1 == CastValue(lib, GetOr(entries, fields[i].0, PyNone), fields[i].1).value
  {
    CastStructRule(lib, PyDict(entries), fields);
    var rs := CastFields(lib, entries, fields);
    if Sequence(rs).Ok? {
      var pairs := Zip(Keys(fields), Sequence(rs).value);
      FromPairsDistinct(pairs);
    }
  }
}
