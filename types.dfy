/** The type model of core/Common.py and core/DataTypes/{Numeric,Temporal,Categorical,Nested,Null}.py.
    Every Python class of the hierarchy, abstract bases included, is one constructor of `DataType`;
    `Class` names the class alone, since equality, hashing, compatibility and the category
    predicates look at nothing else. */
module Types {
  import opened Wrappers
  import opened Dicts
  import opened Text

  datatype DataType =
    | DataTypeBase                                 // DataType() itself
    | NumericType | IntegerType | FloatType | DecimalType | NumericNullType
    | TemporalType | DateType | DatetimeType | TimeType | DurationType | TemporalNullType
    | CategoricalType | BooleanType | StringType | BinaryType | CategoricalNullType
    | NestedType
    | ListType(innerType: DataType)
    | StructType(fields: seq<(string, DataType)>)
    | NestedNullType
    | BaseNullType

  datatype Class =
    | CDataType
    | CNumeric | CInteger | CFloat | CDecimal | CNumericNull
    | CTemporal | CDate | CDatetime | CTime | CDuration | CTemporalNull
    | CCategorical | CBoolean | CString | CBinary | CCategoricalNull
    | CNested | CList | CStruct | CNestedNull
    | CBaseNull

  /** `type(t)`. */
  function ClassOf(t: DataType): Class
  {
    match t
    case DataTypeBase => CDataType
    case NumericType => CNumeric
    case IntegerType => CInteger
    case FloatType => CFloat
    case DecimalType => CDecimal
    case NumericNullType => CNumericNull
    case TemporalType => CTemporal
    case DateType => CDate
    case DatetimeType => CDatetime
    case TimeType => CTime
    case DurationType => CDuration
    case TemporalNullType => CTemporalNull
    case CategoricalType => CCategorical
    case BooleanType => CBoolean
    case StringType => CString
    case BinaryType => CBinary
    case CategoricalNullType => CCategoricalNull
    case NestedType => CNested
    case ListType(_) => CList
    case StructType(_) => CStruct
    case NestedNullType => CNestedNull
    case BaseNullType => CBaseNull
  }

  /** `cls.__name__`. */
  function ClassName(c: Class): string
  {
    match c
    case CDataType => "DataType"
    case CNumeric => "NumericType"
    case CInteger => "IntegerType"
    case CFloat => "FloatType"
    case CDecimal => "DecimalType"
    case CNumericNull => "NumericNullType"
    case CTemporal => "TemporalType"
    case CDate => "DateType"
    case CDatetime => "DatetimeType"
    case CTime => "TimeType"
    case CDuration => "DurationType"
    case CTemporalNull => "TemporalNullType"
    case CCategorical => "CategoricalType"
    case CBoolean => "BooleanType"
    case CString => "StringType"
    case CBinary => "BinaryType"
    case CCategoricalNull => "CategoricalNullType"
    case CNested => "NestedType"
    case CList => "ListType"
    case CStruct => "StructType"
    case CNestedNull => "NestedNullType"
    case CBaseNull => "BaseNullType"
  }

  /** The direct base class of every class but `DataType`. */
  function Parent(c: Class): Class
    requires c != CDataType
  {
    match c
    case CNumeric | CTemporal | CCategorical | CNested | CBaseNull => CDataType
    case CInteger | CFloat | CDecimal => CNumeric
    case CDate | CDatetime | CTime | CDuration => CTemporal
    case CBoolean | CString | CBinary => CCategorical
    case CList | CStruct => CNested
    case CNumericNull | CTemporalNull | CCategoricalNull | CNestedNull => CBaseNull
  }

  /** Distance from `DataType` in the class tree. */
  function Depth(c: Class): nat
  {
    match c
    case CDataType => 0
    case CNumeric | CTemporal | CCategorical | CNested | CBaseNull => 1
    case _ => 2
  }

  /** `issubclass(c, d)`: `d` is `c` or one of its ancestors. The tree is two levels deep, so
      the ancestors of a class are its parent and `DataType`. */
  predicate IsSubclass(c: Class, d: Class)
  {
    c == d || d == CDataType || (c != CDataType && Parent(c) == d)
  }

  /** `isinstance(t, cls)`. */
  predicate IsInstance(t: DataType, c: Class)
  {
    IsSubclass(ClassOf(t), c)
  }

  /** The `DataType.__eq__` METHOD called on `a`: `isinstance(b, type(a))`. */
  predicate EqMethod(a: DataType, b: DataType)
  {
    IsInstance(b, ClassOf(a))
  }

  /** The `a == b` OPERATOR: when `b`'s class strictly derives from `a`'s, Python first tries
      `b.__eq__(a)`, which always answers a bool; otherwise it calls `a.__eq__(b)`. */
  predicate OpEq(a: DataType, b: DataType)
  {
    if ClassOf(a) != ClassOf(b) && IsSubclass(ClassOf(b), ClassOf(a)) then EqMethod(b, a)
    else EqMethod(a, b)
  }

  /** `hash(t)` is taken from the class name only; the name stands for the hash. */
  function HashKey(t: DataType): string
  {
    ClassName(ClassOf(t))
  }

  /** The null classes the engine recognises by name (`BaseNullType` itself is not among them). */
  predicate IsNullKind(t: DataType)
  {
    t.NumericNullType? || t.TemporalNullType? || t.CategoricalNullType? || t.NestedNullType?
  }

  /** The four category predicates. */
  datatype Category = Numeric | Temporal | Categorical | Nested

  /** The body a class itself declares for a category predicate, if it declares one. */
  function Declares(c: Class, p: Category): Option<bool>
  {
    match c
    case CDataType => Some(false)
    case CNumeric => if p == Numeric then Some(true) else None
    case CNumericNull => if p == Numeric then Some(true) else None
    case CTemporal => if p == Temporal then Some(true) else None
    case CTemporalNull => if p == Temporal then Some(true) else None
    case CCategorical => if p == Categorical then Some(true) else None
    case CCategoricalNull => if p == Categorical then Some(true) else None
    case CNestedNull => Some(p == Nested)
    case _ => None
  }

  /** Python method resolution: the nearest class, from `c` upwards, that declares the predicate. */
  function Resolve(c: Class, p: Category): bool
    decreases Depth(c)
  {
    match Declares(c, p)
    case Some(b) => b
    case None =>
      ParentDepth(c);
      Resolve(Parent(c), p)
  }

  predicate IsNumeric(t: DataType) { Resolve(ClassOf(t), Numeric) }
  predicate IsTemporal(t: DataType) { Resolve(ClassOf(t), Temporal) }
  predicate IsCategorical(t: DataType) { Resolve(ClassOf(t), Categorical) }
  predicate IsNested(t: DataType) { Resolve(ClassOf(t), Nested) }

  /** `self.is_compatible(other)`: `BaseNullType` and its subclasses accept everything, every
      other class inherits `isinstance(other, type(self))` from `DataType`. */
  predicate IsCompatible(self: DataType, other: DataType)
  {
    if IsInstance(self, CBaseNull) then true else EqMethod(self, other)
  }

  /** `repr(t)`. */
  function Repr(t: DataType): string
  {
    match t
    case ListType(inner) => "ListType(" + Repr(inner) + ")"
    case StructType(fields) =>
      "StructType(" +
      Join(", ", seq(|fields|, i requires 0 <= i < |fields| => fields[i].0 + ": " + Repr(fields[i].1))) +
      ")"
    case _ => ClassName(ClassOf(t))
  }

  /** The number of type objects in a type, nested ones included. */
  function Size(t: DataType): nat
  {
    match t
    case ListType(inner) => 1 + Size(inner)
    case StructType(fields) => 1 + Sum(seq(|fields|, i requires 0 <= i < |fields| => Size(fields[i].1)))
    case _ => 1
  }

  function Sum(ns: seq<nat>): nat
  {
    if ns == [] then 0 else ns[0] + Sum(ns[1..])
  }

  lemma {:induction false} SumBoundsElement(ns: seq<nat>, i: nat)
    requires i < |ns|
    ensures ns[i] <= Sum(ns)
  {
    if i > 0 {
      SumBoundsElement(ns[1..], i - 1);
    }
  }

  /** A field type found under some key is smaller than the struct holding it. */
  lemma GetSmaller(fields: seq<(string, DataType)>, k: string)
    requires HasKey(fields, k)
    ensures Size(Get(fields, k).value) < Size(StructType(fields))
  {
    var sizes := seq(|fields|, i requires 0 <= i < |fields| => Size(fields[i].1));
    var i :| 0 <= i < |fields| && fields[i] == (k, Get(fields, k).value);
    SumBoundsElement(sizes, i);
  }

  /** `d.get(k, NestedNullType())` on a struct's fields. */
  function FieldOrNull(fields: seq<(string, DataType)>, k: string): DataType
  {
    GetOr(fields, k, NestedNullType)
  }

  /** The field type found, or the null put in its place, is no bigger than the struct, and
      strictly smaller when the key is there. */
  lemma FieldOrNullSmaller(fields: seq<(string, DataType)>, k: string)
    ensures Size(FieldOrNull(fields, k)) <= Size(StructType(fields))
    ensures HasKey(fields, k) ==> Size(FieldOrNull(fields, k)) < Size(StructType(fields))
  {
    if HasKey(fields, k) {
      GetSmaller(fields, k);
    }
  }

  // ---------------------------------------------------------------------------------------
  // Properties of the class tree

  /** The base class sits one level nearer the root. */
  lemma ParentDepth(c: Class)
    requires c != CDataType
    ensures Depth(Parent(c)) + 1 == Depth(c)
  {
  }

  lemma SubclassDepth(c: Class, d: Class)
    requires IsSubclass(c, d)
    ensures Depth(d) <= Depth(c)
    ensures Depth(d) == Depth(c) ==> c == d
  {
    if c != CDataType {
      ParentDepth(c);
    }
  }

  /** Two classes that derive from each other are the same class. */
  lemma SubclassAntisymmetric(c: Class, d: Class)
    requires IsSubclass(c, d) && IsSubclass(d, c)
    ensures c == d
  {
    SubclassDepth(c, d);
    SubclassDepth(d, c);
  }

  /** The `==` operator holds exactly between two types of the same class, whatever their inner
      types or fields. */
  lemma OpEqIsSameClass(a: DataType, b: DataType)
    ensures OpEq(a, b) <==> ClassOf(a) == ClassOf(b)
  {
    if OpEq(a, b) && ClassOf(a) != ClassOf(b) {
      if IsSubclass(ClassOf(b), ClassOf(a)) {
        SubclassAntisymmetric(ClassOf(a), ClassOf(b));
      }
    }
  }

  /** The `__eq__` method holds in both directions exactly between two types of the same class. */
  lemma EqMethodBothWays(a: DataType, b: DataType)
    ensures EqMethod(a, b) && EqMethod(b, a) <==> ClassOf(a) == ClassOf(b)
  {
    if EqMethod(a, b) && EqMethod(b, a) {
      SubclassAntisymmetric(ClassOf(a), ClassOf(b));
    }
  }

  /** The method is asymmetric across the hierarchy: a base equals its subclass, not vice versa. */
  lemma EqMethodAsymmetric()
    ensures EqMethod(NumericType, IntegerType) && !EqMethod(IntegerType, NumericType)
    ensures EqMethod(BaseNullType, NumericNullType) && !EqMethod(NumericNullType, BaseNullType)
    ensures EqMethod(ListType(IntegerType), ListType(StringType))
    ensures EqMethod(StructType([("a", IntegerType)]), StructType([]))
  {
  }

  /** Types equal under `==` hash alike. */
  lemma HashAgreesWithEq(a: DataType, b: DataType)
    requires OpEq(a, b)
    ensures HashKey(a) == HashKey(b)
  {
    OpEqIsSameClass(a, b);
  }

  /** The hash separates classes: two types hash alike exactly when they are `==`. */
  lemma HashSeparatesClasses(a: DataType, b: DataType)
    ensures HashKey(a) == HashKey(b) <==> OpEq(a, b)
  {
    OpEqIsSameClass(a, b);
    if HashKey(a) == HashKey(b) {
      ClassNameInjective(ClassOf(a), ClassOf(b));
    }
  }

  lemma ClassNameInjective(c: Class, d: Class)
    requires ClassName(c) == ClassName(d)
    ensures c == d
  {
  }

  // ---------------------------------------------------------------------------------------
  // The category predicates, resolved through the class tree

  /** `is_numeric` is True exactly for `NumericType`, its subclasses and `NumericNullType`. */
  lemma IsNumericExactly(t: DataType)
    ensures IsNumeric(t) <==> IsInstance(t, CNumeric) || t.NumericNullType?
  {
  }

  /** `is_temporal` is True exactly for `TemporalType`, its subclasses and `TemporalNullType`. */
  lemma IsTemporalExactly(t: DataType)
    ensures IsTemporal(t) <==> IsInstance(t, CTemporal) || t.TemporalNullType?
  {
  }

  /** `is_categorical` is True exactly for `CategoricalType`, its subclasses (Binary included) and
      `CategoricalNullType`. */
  lemma IsCategoricalExactly(t: DataType)
    ensures IsCategorical(t) <==> IsInstance(t, CCategorical) || t.CategoricalNullType?
  {
  }

  /** `is_nested` is True only for `NestedNullType`: `ListType`, `StructType` and `NestedType`
      inherit False from `DataType`. */
  lemma IsNestedExactly(t: DataType)
    ensures IsNested(t) <==> t.NestedNullType?
  {
  }

  /** Each type reports at most one category; `DataType`, `NestedType`, `ListType`, `StructType`
      and `BaseNullType` report none. */
  lemma AtMostOneCategory(t: DataType)
    ensures !(IsNumeric(t) && IsTemporal(t)) && !(IsNumeric(t) && IsCategorical(t))
    ensures !(IsNumeric(t) && IsNested(t)) && !(IsTemporal(t) && IsCategorical(t))
    ensures !(IsTemporal(t) && IsNested(t)) && !(IsCategorical(t) && IsNested(t))
    ensures t.DataTypeBase? || t.NestedType? || t.ListType? || t.StructType? || t.BaseNullType?
            <==> !IsNumeric(t) && !IsTemporal(t) && !IsCategorical(t) && !IsNested(t)
  {
    IsNumericExactly(t);
    IsTemporalExactly(t);
    IsCategoricalExactly(t);
    IsNestedExactly(t);
    var c := ClassOf(t);
    assert IsInstance(t, CNumeric) ==> Parent(c) == CNumeric || c == CNumeric;
    assert IsInstance(t, CTemporal) ==> Parent(c) == CTemporal || c == CTemporal;
    assert IsInstance(t, CCategorical) ==> Parent(c) == CCategorical || c == CCategorical;
  }

  /** The instances of each family's root class, listed. */
  lemma FamilyInstances(t: DataType)
    ensures IsInstance(t, CNumeric) <==> t.NumericType? || t.IntegerType? || t.FloatType? || t.DecimalType?
    ensures IsInstance(t, CTemporal) <==>
              t.TemporalType? || t.DateType? || t.DatetimeType? || t.TimeType? || t.DurationType?
    ensures IsInstance(t, CCategorical) <==>
              t.CategoricalType? || t.BooleanType? || t.StringType? || t.BinaryType?
    ensures IsInstance(t, CNested) <==> t.NestedType? || t.ListType? || t.StructType?
    ensures IsInstance(t, CBaseNull) <==> t.BaseNullType? || IsNullKind(t)
  {
  }

  // ---------------------------------------------------------------------------------------
  // Compatibility

  /** For a type outside the null family, `is_compatible` is the same test as `__eq__`. */
  lemma CompatibleIsEqMethod(a: DataType, b: DataType)
    requires !IsInstance(a, CBaseNull)
    ensures IsCompatible(a, b) <==> EqMethod(a, b)
  {
  }

  /** The null family is compatible with everything, but not conversely. */
  lemma NullCompatibility(a: DataType, b: DataType)
    requires IsNullKind(a) || a.BaseNullType?
    ensures IsCompatible(a, b)
    ensures IsCompatible(IntegerType, a) <==> false
  {
  }

  /** A class at depth two has no subclass but itself. */
  lemma LeafHasNoSubclass(c: Class, d: Class)
    requires Depth(c) == 2 && IsSubclass(d, c)
    ensures d == c
  {
    SubclassDepth(d, c);
  }

  /** An instance of a class is an instance of its base class. */
  lemma InstanceOfParent(t: DataType, c: Class)
    requires c != CDataType && IsInstance(t, c)
    ensures IsInstance(t, Parent(c))
  {
  }

  /** An instance of a class at the bottom of the tree is of exactly that class. */
  lemma LeafInstance(t: DataType, c: Class)
    requires Depth(c) == 2
    ensures IsInstance(t, c) <==> ClassOf(t) == c
  {
    if IsInstance(t, c) {
      LeafHasNoSubclass(c, ClassOf(t));
    }
  }

  /** Two distinct classes at the bottom of the tree outside the null family (Integer, Float,
      Decimal; Date, Datetime, Time, Duration; Boolean, String, Binary; List, Struct) are neither
      equal nor compatible in either direction. */
  lemma SiblingsIncompatible(a: DataType, b: DataType)
    requires ClassOf(a) != ClassOf(b)
    requires Depth(ClassOf(a)) == 2 && Parent(ClassOf(a)) != CBaseNull
    requires Depth(ClassOf(b)) == 2 && Parent(ClassOf(b)) != CBaseNull
    ensures !IsCompatible(a, b) && !IsCompatible(b, a)
    ensures !OpEq(a, b) && !OpEq(b, a)
  {
    LeafSiblings(ClassOf(a), ClassOf(b));
    OpEqIsSameClass(a, b);
    OpEqIsSameClass(b, a);
  }

  lemma LeafSiblings(c: Class, d: Class)
    requires c != d
    requires Depth(c) == 2 && Parent(c) != CBaseNull
    requires Depth(d) == 2 && Parent(d) != CBaseNull
    ensures !IsSubclass(c, d) && !IsSubclass(d, c)
    ensures !IsSubclass(c, CBaseNull) && !IsSubclass(d, CBaseNull)
  {
    ParentDepth(c);
    ParentDepth(d);
  }

  /** `repr` of a list type wraps the inner type's `repr`; non-nested types print their class name. */
  lemma ReprShapes(t: DataType)
    ensures Repr(ListType(t)) == "ListType(" + Repr(t) + ")"
    ensures !t.ListType? && !t.StructType? ==> Repr(t) == ClassName(ClassOf(t))
  {
  }

  /** `repr` of a struct type lists `key: repr(type)` pairs in field order, joined by `", "`. */
  lemma StructReprExample()
    ensures Repr(StructType([("a", IntegerType), ("b", StringType)])) ==
            "StructType(a: IntegerType, b: StringType)"
  {
    var fields := [("a", IntegerType), ("b", StringType)];
    var parts := seq(|fields|, i requires 0 <= i < |fields| => fields[i].0 + ": " + Repr(fields[i].1));
    TwoParts(parts, "a: IntegerType", "b: StringType");
    JoinTwo(", ", "a: IntegerType", "b: StringType");
  }

  lemma TwoParts(parts: seq<string>, p0: string, p1: string)
    requires |parts| == 2 && parts[0] == p0 && parts[1] == p1
    ensures parts == [p0, p1]
  {
  }

  lemma JoinTwo(sep: string, a: string, b: string)
    ensures Join(sep, [a, b]) == a + sep + b
  {
    assert [a, b][1..] == [b];
  }

}
