# lkb-octopus core: data types, schema inference and normalisation in Dafny

This project models the core of lkb-octopus, a Python library that turns the output of
system tools and web services (JSON text, XML text, Python dictionaries and lists) into
one normalised shape, infers a schema for that shape and casts values to it. The model
covers:

- the data-type hierarchy (`core/Common.py` and `core/DataTypes/*Type` classes) with
  Python's class identity, `isinstance`, `==`, hashing, `repr` and the category
  predicates (`Types`);
- type promotion, casting and `can_cast` (`Cast`), type inference, schema inference,
  type unification and schema description (`Schema`), the conversion maps to Python and
  XML (`ConversionMap`) and null handling (`Missing`);
- the typed array containers of `core/DataTypes/Base.py`, as classes whose `data` field
  the methods update in place (`BaseArrays`);
- the normalisation helpers of `core/utility/Normalize.py` (`Normalize`), the class
  `NormalizationUtils` (`NormalizeUtils`), the JSON and XML normalisers and their base
  class (`NormalizeJson`, `NormalizeXml`, `NormalizerBase`) and the element-to-dict
  conversion they share (`XmlTree`);
- the validators of `core/Validate.py` (`Validate`);
- the IO facade of `core/io/parser.py` (`Parser`), the three XML adapters
  (`core/io/XML.py` as `IoXml`, `core/Adapters/XML.py` as `AdapterXml`,
  `core/io/xml_io.py` as `XmlIo`) and the JSON adapter (`IoJson`);
- the adapter registry (`AdapterRegistry`) and the type factory (`Factory`).

Python values are the datatype `Values.Value` (None, bool, int, float and Decimal by
their `repr`, str, date, datetime, list, dict as an ordered association list, and any
other object as an opaque `PyObject`). Python exceptions are `Wrappers.ErrorKind` values
returned in a `Result`. The routines the core borrows from the standard library and
cannot be seen here (`int()`, `float()`, `Decimal()`, `datetime.strptime`, `json.loads`,
`ET.fromstring` and friends) are function-valued fields of a `Foreign.Lib` record that
every operation that needs them takes as a parameter, so each theorem holds for every
behaviour of those routines unless its `requires` says otherwise. XML trees are the
value datatype `XmlTree.Element`.

Helper modules `Wrappers` (Result, Option, Sequence), `Text` (split, join, case
mapping), `Dicts` (association lists) and `Values` carry no source behaviour of their
own and have no rows below.

## Where the code and its description disagree

Where the project's written description and its code differ, the model follows the code:

- Unification is described as commutative. `_unify_types` deduplicates through a `set`,
  which keeps the first type of each class, so `[StructType(a), StructType(b)]` unifies
  to `StructType(a)` (`Schema.UnifyTwoClasses`, `Schema.FirstStructWins`,
  `Schema.FirstStructExample`). Two different non-null classes give `StringType`, not a
  merged type.
- `infer_schema([{"a": 1}, {"b": "x"}])` is described as a struct with both keys. The
  code gives `ListType(StructType({"a": IntegerType}))` (`Schema.FirstStructExample`).
- Casting a time text to `DurationType` is described as supported. `cast_value` has no
  branch for it and raises `ConversionError` (`Cast.CastUnsupported`).
- A host name with a trailing dot or an empty label is described as invalid.
  `normalize_hostname` accepts both (`Normalize.HostnameEmptyLabels`).
- The described error names (incompatible types, cast errors) are, in the code,
  `DataTypeError`, `ConversionError`, `ValueError`, `TypeError` and `NormalizationError`;
  the model uses the code's.
- XML is described as round-tripping. `core/io/XML.py` empties scalar list items and
  drops child tags, `core/Adapters/XML.py` writes one sibling more than the list has
  (`AdapterXml.ListReadBack`), and `core/io/xml_io.py`'s `from_xml` always fails
  (`XmlIo.FromXml`).
- The adapter registry is described as fixed. `register` mutates a class-level
  dictionary; it is the class `AdapterRegistry.Registry`.
- A bare date text (`"2024-01-02"`) is inferred as `DatetimeType`, but casting it to
  `DatetimeType` fails because `cast_value` parses datetimes with the full
  date-and-time format only (`Schema.BareDateInferredButNotCast`).
- `GenericParser.infer_schema` documents its input as `dict or list[dict]`. A list of
  records infers a `ListType`, which the method refuses with `ConversionError`, so only a
  single dict is ever accepted (`Parser.RecordListRejected`).

## Model

| member | source | states |
|---|---|---|
| Types.ParentDepth | core/DataTypes/Numeric.py:4-28 | every class except `DataType` sits exactly one level below its base class (the hierarchy of `core/DataTypes/*.py` is two levels deep) |
| Types.SubclassDepth | core/Common.py:36-37 | `issubclass` never goes up the hierarchy, and a subclass at the same depth is the class itself |
| Types.SubclassAntisymmetric | core/Common.py:36-37 | two classes that are subclasses of each other are the same class |
| Types.LeafHasNoSubclass | core/DataTypes/Temporal.py:11-33 | a concrete type class (`IntegerType`, `DateType`, `NumericNullType`, ...) has no subclass but itself |
| Types.InstanceOfParent | core/DataTypes/Categorical.py:5-29 | an instance of a class is also an instance of its base class |
| Types.LeafInstance | core/Common.py:36-37 | `isinstance(t, C)` for a concrete type class `C` holds exactly when `t`'s class is `C` |
| Types.FamilyInstances | core/DataTypes/Nested.py:5-42 | the instances of `NumericType`, `TemporalType`, `CategoricalType`, `NestedType` and `BaseNullType` are exactly the listed classes of each family; the four null types are `BaseNullType` instances |
| Types.OpEqIsSameClass | core/Common.py:36-37 | the `==` operator between two data types (which tries the right operand's reflected `__eq__` first when its class is a subclass) holds exactly when both have the same class, so inner types and fields never matter |
| Types.EqMethodBothWays | core/Common.py:36-37 | `a.__eq__(b) and b.__eq__(a)` holds exactly when `a` and `b` have the same class |
| Types.EqMethodAsymmetric | core/Common.py:36-37 | `__eq__` on its own is not symmetric: `NumericType().__eq__(IntegerType())` holds but not the converse, likewise for `BaseNullType` and `NumericNullType`; two list types or two struct types are equal whatever their contents |
| Types.HashAgreesWithEq | core/Common.py:39-41 | equal data types have equal hashes (the hash is the class name) |
| Types.HashSeparatesClasses | core/Common.py:39-41 | two data types hash alike exactly when they are `==`, because class names are distinct |
| Types.ClassNameInjective | core/Common.py:33-34 | no two classes share a name, so `repr` of a non-nested type identifies its class |
| Types.IsNumericExactly | core/DataTypes/Numeric.py:4-28 | `is_numeric()` is true exactly for `NumericType` and its subclasses and for `NumericNullType` |
| Types.IsTemporalExactly | core/DataTypes/Temporal.py:5-33 | `is_temporal()` is true exactly for `TemporalType` and its subclasses and for `TemporalNullType` |
| Types.IsCategoricalExactly | core/DataTypes/Categorical.py:5-29 | `is_categorical()` is true exactly for `CategoricalType` and its subclasses and for `CategoricalNullType` |
| Types.IsNestedExactly | core/DataTypes/Nested.py:27-42 | `is_nested()` is true only for `NestedNullType`: `NestedType`, `ListType` and `StructType` inherit `False` from `DataType` |
| Types.AtMostOneCategory | core/Common.py:43-57 | no type is in two of the four categories, and the types in none are exactly `DataType`, `NestedType`, `ListType`, `StructType` and `BaseNullType` |
| Types.CompatibleIsEqMethod | core/Common.py:59-61 | for every class outside the null family `is_compatible` is `isinstance(other, type(self))`, the same test as `__eq__` |
| Types.NullCompatibility | core/DataTypes/Null.py:3-6 | a null type is compatible with every type, while `IntegerType` is compatible with no null type |
| Types.SiblingsIncompatible | core/Common.py:59-61 | two different concrete non-null classes are neither compatible nor `==` in either direction |
| Types.LeafSiblings | core/Common.py:36-37 | two different concrete non-null classes are not subclasses of each other nor of `BaseNullType` |
| Types.ReprShapes | core/DataTypes/Nested.py:13-14 | `repr(ListType(t))` is `ListType(` + `repr(t)` + `)`, and `repr` of every non-nested type is its class name |
| Types.StructReprExample | core/DataTypes/Nested.py:22-24 | `repr` of a struct lists `key: repr(value)` pairs joined by `, ` in field order |
| Cast.UnionKeys | core/DataTypes/Cast.py:62 | the key set `set(f1) \| set(f2)` has no repeated key and holds exactly the keys of either struct |
| Cast.PromoteTypes | core/DataTypes/Cast.py:16-71 | `promote_types` fails only with `DataTypeError` |
| Cast.PromoteStructs | core/DataTypes/Cast.py:58-64 | promoting two structs fails only with `DataTypeError` and otherwise gives a struct |
| Cast.FieldPromotions | core/DataTypes/Cast.py:59-63 | the comprehension promotes each key of the union separately, one result per key |
| Cast.PromoteField | core/DataTypes/Cast.py:60-61 | a key missing on one side promotes against `NestedNullType`; a failure is `DataTypeError` |
| Cast.ScalarRuleApplies | core/DataTypes/Cast.py:27-50 | the numeric, temporal and categorical rules apply exactly when both types are instances of the same family base class |
| Cast.ScalarRuleNotBinary | core/DataTypes/Cast.py:44-50 | the family rules never produce `BinaryType` |
| Cast.ScalarRuleNumeric | core/DataTypes/Cast.py:27-32 | two numeric types promote to the higher of Integer < Float < Decimal |
| Cast.ScalarRuleTemporal | core/DataTypes/Cast.py:35-42 | two temporal types promote to the higher of Time < Date < Datetime < Duration |
| Cast.ScalarRuleCategorical | core/DataTypes/Cast.py:45-50 | two categorical types promote to String if either is String, to Boolean if both are Boolean, else to `CategoricalType` |
| Cast.PromoteNumeric | core/DataTypes/Cast.py:27-32 | `promote_types` on two numeric types gives the higher rank and does not depend on argument order |
| Cast.PromoteTemporal | core/DataTypes/Cast.py:35-42 | `promote_types` on two temporal types gives the higher rank and does not depend on argument order |
| Cast.PromoteCategorical | core/DataTypes/Cast.py:45-50 | `promote_types` on two categorical types gives the higher rank and does not depend on argument order |
| Cast.PromoteNull | core/DataTypes/Cast.py:21-24 | a null type on the left yields the right type; a null type on the right (and not on the left) yields the left type |
| Cast.PromoteScalars | core/DataTypes/Cast.py:119-135 | outside nulls, list pairs and struct pairs, `can_cast` holds exactly when both types share a family, and otherwise promotion raises `DataTypeError` |
| Cast.PromoteMixed | core/DataTypes/Cast.py:71 | two non-null types of different families (and not both lists or both structs) cannot be promoted: `DataTypeError` |
| Cast.NoRuleApplies | core/DataTypes/Cast.py:66-71 | when no rule applies and the pair is not two binary types, `promote_types` raises `DataTypeError` |
| Cast.ScalarRuleDecides | core/DataTypes/Cast.py:27-50 | for non-null types, a family rule that applies decides the result of `promote_types` |
| Cast.PromoteLists | core/DataTypes/Cast.py:53-55 | two lists promote exactly when their inner types do, to the list of the promoted inner type |
| Cast.PromoteStructsRule | core/DataTypes/Cast.py:58-64 | two structs are promoted field by field by the struct rule |
| Cast.BinaryRuleUnreachable | core/DataTypes/Cast.py:67-68 | the binary rule is dead code: `BinaryType` comes out only when a null type passes it through, since two binary types are caught by the categorical rule first |
| Cast.PromoteStructOk | core/DataTypes/Cast.py:58-64 | two structs promote exactly when, for every key of either, the two fields (a missing one read as `NestedNullType`) promote |
| Cast.PromoteStructFields | core/DataTypes/Cast.py:58-64 | the promoted struct has distinct keys, exactly the union of both key sets, and each field is the promotion of the two input fields |
| Cast.CanCastSymmetric | core/DataTypes/Cast.py:119-135 | `can_cast(a, b)` equals `can_cast(b, a)` for every pair of types, nested ones included |
| Cast.CanCastSymmetricNull | core/DataTypes/Cast.py:21-24 | a null type can be cast to and from every type |
| Cast.CanCastSymmetricFamily | core/DataTypes/Cast.py:27-50 | two non-null types of the same family can be cast both ways |
| Cast.CanCastSymmetricMixed | core/DataTypes/Cast.py:71 | two non-null types of different families (not two lists or two structs) can be cast neither way |
| Cast.CanCastSymmetricStructs | core/DataTypes/Cast.py:58-64 | for two structs, `can_cast` does not depend on argument order |
| Cast.PromoteSettledScalar | core/DataTypes/Cast.py:27-50 | every concrete scalar type promotes with itself to itself |
| Cast.PromoteIdempotent | core/DataTypes/Cast.py:16-71 | `promote_types(t, t) == t` for every type built from concrete classes with distinct struct keys (what inference produces) |
| Cast.PromoteStructIdempotent | core/DataTypes/Cast.py:58-64 | such a struct promotes with itself to itself |
| Cast.PromoteStructsSelf | core/DataTypes/Cast.py:58-64 | the struct rule applied to one struct twice returns that struct, keys in their original order |
| Cast.PromoteFieldSelf | core/DataTypes/Cast.py:60-61 | each field of such a struct promotes with itself to itself |
| Cast.UnionKeysSelf | core/DataTypes/Cast.py:62 | the union of a struct's key set with itself is its own key list |
| Cast.PromoteAbstractTypes | core/DataTypes/Cast.py:27-50 | the abstract family classes do not promote to themselves: Binary with Binary gives `CategoricalType`, Numeric with Numeric gives `IntegerType`, Temporal with Temporal gives `TimeType` |
| Cast.PromoteBinarySelf | core/DataTypes/Cast.py:45-50 | two binary types promote to `CategoricalType` |
| Cast.PromoteNumericSelf | core/DataTypes/Cast.py:27-32 | two `NumericType`s promote to `IntegerType` |
| Cast.PromoteTemporalSelf | core/DataTypes/Cast.py:35-42 | two `TemporalType`s promote to `TimeType` |
| Cast.PromoteWithoutRule | core/DataTypes/Cast.py:71 | `DataType`, `NestedType` and `BaseNullType` do not promote even with themselves |
| Cast.NoRuleForSelf | core/DataTypes/Cast.py:71 | `DataType`, `NestedType` and `BaseNullType` each raise `DataTypeError` when promoted with themselves |
| Cast.CastItems | core/DataTypes/Cast.py:108 | the list comprehension casts each item to the inner type, in order |
| Cast.CastFields | core/DataTypes/Cast.py:112-115 | the struct comprehension casts, for each field of the target, the value under that key (None when absent) |
| Cast.CastNone | core/DataTypes/Cast.py:78-81 | casting None succeeds (giving None) exactly for targets that are numeric, temporal, categorical, list or struct instances; otherwise `ConversionError` |
| Cast.CastUnsupported | core/DataTypes/Cast.py:117 | a value other than None cast to `DataType`, a family base class, `NestedType`, a null type, `TimeType`, `DurationType` or `BinaryType` raises `ConversionError` |
| Cast.CastBoolean | core/DataTypes/Cast.py:90-96 | casting to Boolean never fails; None stays None and anything else becomes a bool |
| Cast.CastToBoolean | core/DataTypes/Cast.py:90-96 | a text whose lower case is `true`/`1` gives True, `false`/`0` gives False, and any other value gives its Python truth value |
| Cast.CastBooleanExamples | core/DataTypes/Cast.py:90-96 | `"TRUE"` gives True, `"0"` gives False, `"no"` gives True (a non-empty text) and `0` gives False |
| Cast.CastToString | core/DataTypes/Cast.py:97-98 | casting to String gives `str(value)` |
| Cast.CastBoolRoundTrip | core/DataTypes/Cast.py:90-98 | a bool cast to String and back to Boolean is the same bool |
| Cast.CastStringIdempotent | core/DataTypes/Cast.py:97-98 | casting to String twice equals casting once, and a text is left as it is |
| Cast.CastNumeric | core/DataTypes/Cast.py:83-89 | Integer, Float and Decimal casts succeed exactly when `int()`, `float()` and `Decimal()` do, give their value, and pass on their exception |
| Cast.CastTemporalText | core/DataTypes/Cast.py:99-104 | a text casts to Date when it parses as `%Y-%m-%d` and to Datetime when it parses as `%Y-%m-%d %H:%M:%S`; otherwise `ValueError` |
| Cast.CastTemporalNeedsString | core/DataTypes/Cast.py:99-104 | a non-text value other than None cast to Date or Datetime raises `TypeError` |
| Cast.CastListRule | core/DataTypes/Cast.py:105-108 | a non-list cast to a list type raises `ConversionError`; a list is cast item by item and the first failure is raised |
| Cast.CastStructRule | core/DataTypes/Cast.py:109-115 | a non-dict cast to a struct raises `ConversionError`; a dict is cast field by field in the struct's key order and the first failure is raised |
| Cast.CastList | core/DataTypes/Cast.py:105-108 | a list cast succeeds exactly when every item casts, and gives a list of the same length holding each item's cast |
| Cast.CastStruct | core/DataTypes/Cast.py:109-115 | a dict cast to a struct succeeds exactly when every field casts; the result has exactly the struct's keys (extra dict keys are dropped, missing ones cast from None) |
| Schema.ParseDatetime | core/DataTypes/Schema.py:39-47 | `parse_datetime` succeeds exactly on a text that parses with one of the two formats; a text that parses with neither raises `ConversionError`, and a non-text (which `strptime` rejects) raises `TypeError` |
| Schema.ParseDate | core/DataTypes/Schema.py:49-54 | `parse_date` succeeds exactly on a text in `%Y-%m-%d`; otherwise `ConversionError`, or `TypeError` for a non-text |
| Schema.ParseDateAgrees | core/DataTypes/Schema.py:28-54 | a text `parse_date` accepts is also accepted by `is_datetime` and `parse_datetime`, which gives that date at midnight when the long format does not match |
| Schema.InferText | core/DataTypes/Schema.py:81-88 | a text is inferred as Integer exactly when it is all digits, as Decimal exactly when it is not and `Decimal()` accepts it, as Datetime exactly when `Decimal()` raises `InvalidOperation` and one date format matches, and as String when none does; any other exception of `Decimal()` escapes unchanged |
| Schema.BareDateInferredButNotCast | core/DataTypes/Schema.py:86-87 | a bare date text is inferred as `DatetimeType`, yet casting it to `DatetimeType` raises `ValueError` (cast_value knows only the long format) |
| Schema.InferScalar | core/DataTypes/Schema.py:71-100 | the scalar branches of `infer_type`: None gives `NestedNullType`, a bool `BooleanType` (checked before int), an int `IntegerType`, NaN `NumericNullType` and other floats `FloatType`, a Decimal `DecimalType`, a date `DateType`, a datetime `DatetimeType`, a text its `InferText` type, and any other object raises `DataTypeError` |
| Schema.EmptyDict | core/DataTypes/Schema.py:96-98 | both inferences give the empty struct for an empty dict |
| Schema.InferItems | core/DataTypes/Schema.py:94 | the list comprehension infers each item's type, in order |
| Schema.InferEntries | core/DataTypes/Schema.py:97 | the dict comprehension infers each value's type, in key order |
| Schema.SchemaItems | core/DataTypes/Schema.py:116 | `infer_schema` is applied to each item, in order |
| Schema.SchemaEntries | core/DataTypes/Schema.py:122 | `infer_schema` is applied to each value, in key order |
| Schema.Classes | core/DataTypes/Schema.py:129 | the classes of a type list, position by position (what `set` compares) |
| Schema.FirstOfClass | core/DataTypes/Schema.py:129 | the first type of a given class in the list, the one a `set` of equal-hash, equal types keeps |
| Schema.UniqueByClass | core/DataTypes/Schema.py:129 | `set(types)` holds one type per class, only types from the input, every class of the input, and for each class its first occurrence |
| Schema.FirstOfClassSnoc | core/DataTypes/Schema.py:129 | appending a type keeps the first type of every class already present, and a new class is represented by the appended type |
| Schema.NonNulls | core/DataTypes/Schema.py:135-136 | `t not in null_types` drops exactly the four null types (by `==`, that is by class) and keeps classes distinct |
| Schema.FirstNonNull | core/DataTypes/Schema.py:136-138 | the first non-null type of a list that has one |
| Schema.UniqueSingleton | core/DataTypes/Schema.py:131-132 | the deduplicated list has one element exactly when the input is non-empty and of one class |
| Schema.FirstOfClassIsFirstNonNull | core/DataTypes/Schema.py:136-138 | when one class is exactly the non-null types, its first type is the first non-null type |
| Schema.NonNullSingleton | core/DataTypes/Schema.py:136-138 | one non-null type remains exactly when the input has a non-null type and all of them share a class; it is the first non-null type |
| Schema.UnifyCases | core/DataTypes/Schema.py:127-157 | `_unify_types` returns `ListType(NestedNullType)` for no types, the first type when all share a class, the first non-null type when the non-null ones share a class, and `StringType` otherwise (the list and struct branches can only run on one class or on none) |
| Schema.UnifyFrom | core/DataTypes/Schema.py:127-157 | the unified type is one of the inputs, `StringType`, or `ListType(NestedNullType)` |
| Schema.UnifySkipsNulls | core/DataTypes/Schema.py:134-138 | nulls between two equal types do not change the unified type |
| Schema.UnifyNullBetween | core/DataTypes/Schema.py:134-138 | `[Integer, NestedNull, Integer]` unifies to `IntegerType` |
| Schema.UnifyIntegerFloat | core/DataTypes/Schema.py:156-157 | `[Integer, Float]` unifies to `StringType`: numeric types are not promoted here |
| Schema.UnifyTwoClasses | core/DataTypes/Schema.py:156-157 | any two non-null types of different classes unify to `StringType` |
| Schema.UnifyOneClass | core/DataTypes/Schema.py:131-132 | a non-empty list of one class unifies to its first type |
| Schema.UnifySettled | core/DataTypes/Schema.py:127-157 | unifying concrete types with distinct struct keys gives such a type again |
| Schema.InferredSettled | core/DataTypes/Schema.py:60-100 | every inferred type is built from concrete classes and has distinct struct keys |
| Schema.ScalarSettled | core/DataTypes/Schema.py:71-92 | every scalar inference gives a concrete class |
| Schema.ListSettled | core/DataTypes/Schema.py:93-95 | a list's inferred type is concrete when its items' are |
| Schema.DictSettled | core/DataTypes/Schema.py:96-98 | a dict's inferred type is concrete with distinct keys when its values' are |
| Schema.InferredPromotesToItself | core/DataTypes/Schema.py:60-100 | `promote_types(infer_type(v), infer_type(v))` is `infer_type(v)`: inference and promotion agree |
| Schema.InferListRule | core/DataTypes/Schema.py:93-95 | a list is inferred as the list of the unified item types |
| Schema.InferDictRule | core/DataTypes/Schema.py:96-98 | a dict is inferred as the struct of its keys and the inferred value types |
| Schema.SchemaDictRule | core/DataTypes/Schema.py:119-123 | a non-empty dict's schema is the struct of its keys and its values' schemas |
| Schema.SchemaListRule | core/DataTypes/Schema.py:113-118 | a non-empty list's schema is the list of its items' unified schemas |
| Schema.InferSchemaAgrees | core/DataTypes/Schema.py:102-125 | on data with no empty list anywhere, `infer_schema` equals `infer_type` |
| Schema.EmptyList | core/DataTypes/Schema.py:113-115 | the two inferences differ on `[]`: `infer_type` gives `ListType(ListType(NestedNullType))`, `infer_schema` gives `ListType(NestedNullType)` |
| Schema.InferListWithNull | core/DataTypes/Schema.py:93-95 | `[a, None, b]` of ints is inferred as `ListType(IntegerType)` |
| Schema.InferListMixedNumbers | core/DataTypes/Schema.py:93-95 | a list of an int and a non-NaN float is inferred as `ListType(StringType)` |
| Schema.FirstStructWins | core/DataTypes/Schema.py:93-95 | a list of dicts is inferred as the list of the first dict's struct; later dicts' keys are dropped |
| Schema.StructsOneClass | core/DataTypes/Schema.py:96-98 | the types inferred for a list of dicts all have one class |
| Schema.DictInfersStruct | core/DataTypes/Schema.py:96-98 | a dict is always inferred as a struct |
| Schema.FirstStructExample | core/DataTypes/Schema.py:93-98 | `[{"a": 1}, {"b": "x"}]` is inferred as `ListType(StructType({"a": IntegerType}))` |
| Schema.DescribeFields | core/DataTypes/Schema.py:171 | each struct field is described under its own key, in order |
| Schema.Find | core/DataTypes/Schema.py:170-175 | the position of a key in a dict, present exactly when the key is, and its first occurrence |
| Schema.ClassFromName | core/DataTypes/Schema.py:175 | reading a `type` name back gives only non-nested types; `ClassNameRoundTrip` shows it undoes `__class__.__name__` |
| Schema.UndescribeFields | core/DataTypes/Schema.py:171 | reading a `fields` dict back succeeds exactly when every field does, keeping keys and order |
| Schema.ClassNameRoundTrip | core/DataTypes/Schema.py:175 | every non-nested type is recovered from its class name |
| Schema.DescribeRoundTrip | core/DataTypes/Schema.py:159-175 | `describe_schema` loses nothing: every type with distinct struct keys is read back from its description |
| Schema.DescribeLeafRule | core/DataTypes/Schema.py:174-175 | a non-nested type is described as `{"type": <class name>}` and read back by name |
| Schema.DescribeListRule | core/DataTypes/Schema.py:172-173 | a list's description reads back as the list of its element's reading |
| Schema.DescribeStructRoundTrip | core/DataTypes/Schema.py:170-171 | a struct with distinct keys is read back from its description |
| Schema.DescribeSeparatesListTypes | core/DataTypes/Schema.py:172-173 | `ListType(Integer)` and `ListType(String)` are `==` but have different descriptions |
| Schema.FlatRecordSchema | core/DataTypes/Schema.py:119-123 | the schema of a record whose values are all texts is a struct whose field for each key is that text's inferred type |
| Schema.SingleKeySchema | core/DataTypes/Schema.py:119-123 | a one-key dict's schema is the struct of that key and its value's schema |
| ConversionMap.ToPythonUnhandled | core/DataTypes/Map.py:33 | a schema outside Integer, Float, Decimal, Datetime, Date, Boolean and String returns the value unchanged |
| ConversionMap.ToPythonNumeric | core/DataTypes/Map.py:19-24 | the numeric schemas succeed exactly when `int()`, `float()` or `Decimal()` does and give its value or its exception |
| ConversionMap.ToPythonBoolean | core/DataTypes/Map.py:29-30 | a text is True exactly when its lower case is `true`; a non-text has no `.lower()` and raises `AttributeError` |
| ConversionMap.BooleanReadersDisagree | core/DataTypes/Map.py:29-30 | `to_python("1", BooleanType)` is False while `cast_value("1", BooleanType)` is True: the two boolean readers disagree |
| ConversionMap.ToPythonTemporal | core/DataTypes/Map.py:25-28 | Datetime and Date schemas read a text through `parse_datetime` and `parse_date` and raise `ConversionError` on a text neither format matches |
| ConversionMap.IntegerRoundTrip | core/DataTypes/Map.py:19-20 | `to_python(to_xml(i, Integer), Integer) == i` whenever `int()` reads back `str(i)` |
| ConversionMap.BooleanRoundTrip | core/DataTypes/Map.py:41-42 | `to_xml` writes `true`/`false` by truth value and `to_python` reads that truth value back |
| ConversionMap.StringRoundTrip | core/DataTypes/Map.py:31-32 | a text survives `to_xml` then `to_python` unchanged |
| ConversionMap.DatetimeRoundTrip | core/DataTypes/Map.py:37-38 | a datetime written with `strftime` is read back without its microseconds |
| ConversionMap.ToXmlFallbacks | core/DataTypes/Map.py:37-43 | a date under a Datetime schema and None under a null schema fall back to `str(value)` |
| Missing.FillNulls | core/DataTypes/Missing.py:40-44 | `fill_nulls` keeps dict keys in order and list lengths, and replaces a scalar exactly when `is_null` holds |
| Missing.FillEntries | core/DataTypes/Missing.py:41 | each dict value is filled under its own key |
| Missing.FillItems | core/DataTypes/Missing.py:43 | each list item is filled, in order |
| Missing.FillNullFree | core/DataTypes/Missing.py:40-44 | data without nulls is returned unchanged |
| Missing.FillRemovesNulls | core/DataTypes/Missing.py:40-44 | with a non-null fill value, no null is left anywhere |
| Missing.FillIdempotent | core/DataTypes/Missing.py:40-44 | filling twice with a non-null value equals filling once |
| Missing.DetectAgreesWithIsNull | core/DataTypes/Missing.py:57-63 | `detect_null_type` gives `NestedNullType` exactly for null values, succeeds exactly on None, texts, ints, bools and floats, and otherwise returns `StringType` or `NumericType` |
| Missing.PaddingIgnored | core/DataTypes/Missing.py:24-25 | surrounding white space does not change whether a text is null |
| Missing.BlankIsNull | core/DataTypes/Missing.py:24-25 | a text of spaces is null (it strips to the empty text) |
| Missing.NonNullExample | core/DataTypes/Missing.py:11 | `"Null"` is not null: the tokens are case-sensitive |
| Missing.NullNotToken | core/DataTypes/Missing.py:11 | `"Null"` is not one of the null tokens |
| Missing.DetectExamples | core/DataTypes/Missing.py:57-63 | `0` is not null, and a bool is detected as `NumericType` because `bool` is a subclass of `int` |
| BaseArrays.CheckValid | core/DataTypes/Base.py:39-52 | `_is_valid_type` (plain, or the `AdvancedBaseArray` override at core/DataTypes/Base.py:128-156 that descends into structs and lists) decides the validity predicate: None is always valid, otherwise the `type_cls` test or the nested rules |
| BaseArrays.ValidateData | core/DataTypes/Base.py:23-37 | `_validate_data` returns the data unchanged exactly when every item is valid, and raises `DataTypeError` otherwise, with the plain check taken as the corrected `typeCls` (as written it raises AttributeError: see `BaseArrays.PlainHoldsOnlyNone`) |
| BaseArrays.SliceBound | core/DataTypes/Base.py:64-65 | a slice bound (negative counts from the end, out of range is clamped, missing takes its default) lies within the array |
| BaseArrays.SliceOf | core/DataTypes/Base.py:64-65 | `data[start:stop]` holds the items from the clamped start up to the clamped stop, in order, and is empty when start passes stop |
| BaseArrays.FilledNone | core/DataTypes/Base.py:91 | each None is replaced by the fill value and every other item is kept |
| BaseArrays.Applied | core/DataTypes/Base.py:103 | `func` is applied to each non-None item and None stays None; a failing call is the error raised |
| BaseArrays.Casted | core/DataTypes/Base.py:116-120 | each item is cast to the target; a `ConversionError` surfaces as `DataTypeError`, and every result is the item's cast |
| BaseArrays.BaseArray.Init | core/DataTypes/Base.py:19-21 | the constructor stores data and dtype when every item is valid |
| BaseArrays.BaseArray.Create | core/DataTypes/Base.py:19-37 | with the corrected check `typeCls`, `BaseArray(data, dtype)` succeeds exactly when every item is valid, storing the data and dtype unchanged in a new valid array; otherwise it raises `DataTypeError` |
| BaseArrays.BaseArray.Length | core/DataTypes/Base.py:54-55 | `len` is the number of items |
| BaseArrays.BaseArray.Item | core/DataTypes/Base.py:57-66 | indexing succeeds exactly for `-len <= i < len`, counting negative indices from the end, and raises `IndexError` otherwise |
| BaseArrays.BaseArray.Slice | core/DataTypes/Base.py:64-65 | with the corrected check, a slice is a new valid plain `BaseArray` of the sliced items with the same dtype, which fails with `DataTypeError` exactly when plain validation rejects them; slicing a valid plain array always succeeds |
| BaseArrays.BaseArray.SetItem | core/DataTypes/Base.py:68-74 | with the corrected check, an invalid value raises `DataTypeError` and an index out of range raises `IndexError`, both leaving the data unchanged; otherwise exactly that one position changes, and validity is kept |
| BaseArrays.BaseArray.IsNa | core/DataTypes/Base.py:79-83 | the mask is true exactly at the None items |
| BaseArrays.BaseArray.FillNa | core/DataTypes/Base.py:85-91 | with the corrected check, a valid fill value replaces every None; an invalid one raises `DataTypeError` and changes nothing; validity is kept |
| BaseArrays.BaseArray.Apply | core/DataTypes/Base.py:93-104 | the result is a new plain array of the applied values with the same dtype; an error of `func` is raised as is, and, with the corrected check, values that fail validation raise `DataTypeError` |
| BaseArrays.BaseArray.AsType | core/DataTypes/Base.py:106-120 | the result is a new plain array of the cast values with the target dtype, validated by the corrected check; a cast failure never surfaces as `ConversionError` |
| BaseArrays.FillNaLeavesNoNone | core/DataTypes/Base.py:85-91 | after `fillna` with a value other than None no None is left, other items are kept, and a second `fillna` changes nothing |
| BaseArrays.SliceWhole | core/DataTypes/Base.py:64-65 | `data[:]` is the whole array, and no slice is longer than the array |
| BaseArrays.AdvancedStructExamples | core/DataTypes/Base.py:142-149 | the advanced check ignores dict keys the struct does not name, checks the named ones, accepts None in a field and rejects a non-dict |
| BaseArrays.AdvancedSliceRejected | core/DataTypes/Base.py:64-65 | with the corrected check, slicing an `AdvancedBaseArray` of dicts fails validation: the slice is built as a plain `BaseArray`, whose check rejects the dicts the advanced check accepted (as written the slice raises AttributeError: `BaseArrays.AsWrittenExamples`) |
| BaseArrays.CheckAsWritten | core/DataTypes/Base.py:39-52 | `_is_valid_type` as written raises only AttributeError; on a plain array it answers exactly for None, and only the advanced struct and list rules can answer False |
| BaseArrays.FieldsAsWritten | core/DataTypes/Base.py:142-149 | the advanced loop over a struct's fields raises only AttributeError |
| BaseArrays.ItemsAsWritten | core/DataTypes/Base.py:151-154 | `all(...)` over a list's items raises only AttributeError |
| BaseArrays.ValidatedAsWritten | core/DataTypes/Base.py:23-37 | `_validate_data` over the check as written returns the data unchanged, or raises AttributeError or DataTypeError |
| BaseArrays.PlainHoldsOnlyNone | core/DataTypes/Base.py:50-52 | as written, a plain `BaseArray` is built exactly when every item is None, and otherwise raises AttributeError |
| BaseArrays.AsWrittenAgrees | core/DataTypes/Base.py:128-156 | wherever the check as written gives an answer it is the corrected validity predicate's, for every `typeCls` |
| BaseArrays.FieldsAgree | core/DataTypes/Base.py:142-149 | an answer of the struct loop as written is the corrected check of every field the dict has |
| BaseArrays.ItemsAgree | core/DataTypes/Base.py:151-154 | an answer of the list loop as written is the corrected check of every item |
| BaseArrays.AsWrittenExamples | core/DataTypes/Base.py:19-65 | `BaseArray([1], IntegerType())` raises AttributeError as written and is built under a corrected check; an `AdvancedBaseArray` of `[{}]` is built, and its slice raises AttributeError |
| Normalize.NormalizeJson | core/utility/Normalize.py:10-30 | a dict or list is returned as is, a text succeeds exactly when `json.loads` accepts it and gives back its parsed value, and everything else raises `NormalizationError`; every failure is `NormalizationError` |
| Normalize.NormalizeList | core/utility/Normalize.py:33-50 | succeeds exactly on a dict (wrapped in a one-element list) or a list of dicts (returned as is); the result is always a list of dicts |
| Normalize.NormalizeListIdempotent | core/utility/Normalize.py:33-50 | normalising an already normalised list changes nothing |
| Normalize.NormalizeWhitespace | core/utility/Normalize.py:53-57 | succeeds exactly on a text; anything else raises `NormalizationError` |
| Normalize.NormalizeWhitespaceWords | core/utility/Normalize.py:57 | the result has the same words as the input, single spaces only, and normalising again changes nothing |
| Normalize.NormalizeDict | core/utility/Normalize.py:60-64 | succeeds exactly on a dict and returns it unchanged |
| Normalize.NormalizeHostname | core/utility/Normalize.py:78-85 | succeeds exactly on a text whose stripped, lower-cased form is non-empty, at most 255 characters and has no dot-separated label over 63, and returns that form |
| Normalize.NormalizeHostnameIdempotent | core/utility/Normalize.py:78-85 | a normalised host name normalises to itself |
| Normalize.HostnameEmptyLabels | core/utility/Normalize.py:83 | `"a..b."` is accepted: empty labels and a trailing dot pass the length checks |
| Normalize.HostnameLongLabel | core/utility/Normalize.py:83 | a 64-character label is rejected |
| Normalize.CasedPairs | core/utility/Normalize.py:103 | each key is lower- or upper-cased and keeps its value, in order |
| Normalize.NormalizeKeys | core/utility/Normalize.py:88-103 | succeeds exactly on a dict with case `lower` or `upper`; a non-dict raises `NormalizationError` (checked first) and another case `ValueError` |
| Normalize.NormalizeKeysLookup | core/utility/Normalize.py:103 | looking up a key in the result gives the value of the last input key that cases to it (later keys overwrite earlier ones in the comprehension) |
| Normalize.NormalizeKeysCased | core/utility/Normalize.py:103 | the result's keys are distinct and already in the requested case |
| Normalize.NormalizeInput | core/utility/Normalize.py:106-137 | a dict is returned as is; a list whose first item is a dict is unwrapped when it is a single one-key dict and otherwise wrapped under `root`; every other input raises `NormalizationError`, and the result is always a dict |
| Normalize.NormalizeInputChecksFirstOnly | core/utility/Normalize.py:126 | only the first item is checked: `[{}, 1]` is wrapped under `root` |
| Normalize.NormalizeInputIdempotent | core/utility/Normalize.py:106-137 | normalising a normalised input changes nothing |
| NormalizeUtils.Pushed | core/io/normalize/NormalizeUtils.py:96-97 | the frames a dict pushes are its nested dict values, each strictly smaller than the dict |
| NormalizeUtils.PendingSnoc | core/io/normalize/NormalizeUtils.py:88-89 | popping the top frame of the stack first puts that frame's pairs ahead of the rest of the stack's |
| NormalizeUtils.PendingPushed | core/io/normalize/NormalizeUtils.py:91-97 | the frames pushed while scanning a dict, once popped, produce exactly the dict's nested pairs, last-pushed first |
| NormalizeUtils.PendingPushedDescends | core/io/normalize/NormalizeUtils.py:96-97 | pushing one more nested dict adds its pairs in front of those already pending |
| NormalizeUtils.PendingCountPushed | core/io/normalize/NormalizeUtils.py:96-97 | the work left on the stack after pushing is the dict's nested work plus what was there (the loop's termination measure) |
| NormalizeUtils.FlattenDict | core/io/normalize/NormalizeUtils.py:83-103 | the stack loop of `flatten_dict` produces `dict(items)` of the depth-first pairs: direct pairs of each popped frame in key order, then the frames it pushed, last first |
| NormalizeUtils.PopStep | core/io/normalize/NormalizeUtils.py:88-101 | scanning one popped frame keeps the loop invariant "items so far plus what the stack will still produce" and shrinks the pending work |
| NormalizeUtils.ScanFrame | core/io/normalize/NormalizeUtils.py:91-101 | the inner `for` loop appends the frame's direct pairs (scalars, and lists through `flatten_list`) to `items` and pushes its nested dicts below the depth limit |
| NormalizeUtils.FlattenList | core/io/normalize/NormalizeUtils.py:105-118 | each list item is keyed by `parent<sep>index`: dicts through `flatten_dict`, lists recursively, scalars directly, later keys overwriting earlier ones |
| NormalizeUtils.ItemResults | core/io/normalize/NormalizeUtils.py:121 | each list item is flattened as a dict; an item that is not a dict has no `.items()` and raises `AttributeError` |
| NormalizeUtils.FlattenedStructure | core/io/normalize/NormalizeUtils.py:120-125 | a list flattens exactly when every item is a dict, item by item; a dict flattens to one dict; anything else raises `ValueError` |
| NormalizeUtils.FlattenStructure | core/io/normalize/NormalizeUtils.py:62-125 | the loop over the list computes the flattened structure |
| NormalizeUtils.EntryFlat | core/io/normalize/NormalizeUtils.py:92-101 | every pair one entry contributes has a value that is not a dict (unless the depth limit stopped it) nor a list, and a lower-case key when asked |
| NormalizeUtils.DirectFlat | core/io/normalize/NormalizeUtils.py:91-101 | the direct pairs of a frame are flat |
| NormalizeUtils.FlatPairsJoin | core/io/normalize/NormalizeUtils.py:99-101 | appending flat pairs to flat pairs stays flat |
| NormalizeUtils.FrameFlat | core/io/normalize/NormalizeUtils.py:83-103 | all pairs a frame produces are flat |
| NormalizeUtils.NestedFlat | core/io/normalize/NormalizeUtils.py:96-97 | the pairs of pushed nested frames are flat |
| NormalizeUtils.ListFlat | core/io/normalize/NormalizeUtils.py:105-118 | the pairs of a flattened list are flat |
| NormalizeUtils.FlattenedIsFlat | core/io/normalize/NormalizeUtils.py:83-103 | the result of `flatten_dict` has distinct keys, no list values, no dict values except those the depth limit kept, and lower-case keys when asked |
| NormalizeUtils.DirectIdentity | core/io/normalize/NormalizeUtils.py:91-101 | on an already flat dict the scan keeps every pair and pushes nothing |
| NormalizeUtils.FlatIdentity | core/io/normalize/NormalizeUtils.py:83-103 | an already flat dict (distinct keys already in the requested case, no dict or list values) flattens to itself |
| NormalizeUtils.FlattenIdempotent | core/io/normalize/NormalizeUtils.py:83-103 | without a depth limit, flattening a flattened dict again changes nothing |
| NormalizeUtils.NestedKeyJoined | core/io/normalize/NormalizeUtils.py:92-94 | `{"A": {"B": 1}}` flattens to `{"a_b": 1}`: keys are joined with the separator and lower-cased |
| NormalizeUtils.DepthLimitKeepsDict | core/io/normalize/NormalizeUtils.py:96 | with `max_level=0` a nested dict is kept as a value under its lower-cased key |
| NormalizeUtils.ListPositions | core/io/normalize/NormalizeUtils.py:105-118 | list items are keyed by their positions, and a dict inside a list is flattened under that position |
| NormalizeUtils.LevelRestartsInList | core/io/normalize/NormalizeUtils.py:86 | the depth limit restarts inside a list: `flatten_dict` ignores the level it is given and starts its stack at 0, so a dict inside a list is flattened further than `max_level` |
| NormalizeUtils.CollisionLastWins | core/io/normalize/NormalizeUtils.py:103 | when two paths give the same key the later pair wins: the nested frame is popped after the direct pairs |
| NormalizeUtils.HandleNulls | core/io/normalize/NormalizeUtils.py:12-23 | `handle_nulls` keeps dict keys and list lengths and leaves every null-like value as None |
| NormalizeUtils.NullsBecomeNone | core/io/normalize/NormalizeUtils.py:23 | filling nulls with None leaves no null-like value other than None |
| NormalizeUtils.HandleNullsStandard | core/io/normalize/NormalizeUtils.py:12-23 | data whose only nulls are None is returned unchanged |
| NormalizeUtils.HandleNullsIdempotent | core/io/normalize/NormalizeUtils.py:12-23 | handling nulls twice equals handling them once |
| NormalizeUtils.NormalizeWhitespace | core/io/normalize/NormalizeUtils.py:25-30 | succeeds exactly on a text, keeps its words with single spaces, and agrees with `Normalization.normalize_whitespace` |
| NormalizeUtils.NormalizeKeys | core/io/normalize/NormalizeUtils.py:32-48 | succeeds exactly on a dict with case `lower` or `upper`, with the same two errors, and agrees with `Normalization.normalize_keys` |
| NormalizeJson.Normalize | core/io/normalize/NormalizeJSON.py:18-48 | every failure is `NormalizationError`; with `flatten` the result is `flatten_structure` with lower-cased keys (its errors rewrapped); otherwise a dict is wrapped in a list, a list of dicts is kept, and other non-text inputs fail |
| NormalizeJson.AgreesWithNormalizerBase | core/io/normalize/NormalizeJSON.py:42-46 | without flattening, on non-text input `NormalizeJSON.normalize` succeeds exactly when `ABCNormalizer.normalize_input` does and gives the same list |
| NormalizeJson.NormalizeIdempotent | core/io/normalize/NormalizeJSON.py:35-48 | without flattening the result is a list of dicts that normalises to itself |
| NormalizeJson.FlattenedDict | core/io/normalize/NormalizeJSON.py:36-37 | flattening a dict gives the dict of its flattened, lower-cased pairs |
| NormalizerBase.NormalizeInput | core/NormalizerBase.py:9-28 | a dict is wrapped in a list, a list of dicts is returned as is, anything else raises `ValueError`; the result is always a list of dicts |
| NormalizerBase.AgreesWithNormalizeList | core/NormalizerBase.py:23-28 | it accepts exactly what `Normalization.normalize_list` accepts and returns the same list, but fails with `ValueError` where that raises `NormalizationError`; its result normalises to itself |
| NormalizeXml.AttribValue | core/io/normalize/NormalizeXML.py:63 | the attributes become a dict of the same names and texts, in order |
| NormalizeXml.Payload | core/io/normalize/NormalizeXML.py:36-68 | the data `_xml_to_dict` stores under an element's tag is a dict |
| NormalizeXml.ChildPayloads | core/io/normalize/NormalizeXML.py:51-52 | each child is converted to its tag and its own payload, in document order |
| NormalizeXml.ChildPrefixStep | core/io/normalize/NormalizeXML.py:51-60 | the loop over children folds one child at a time into `child_dict` |
| NormalizeXml.XmlToDict | core/io/normalize/NormalizeXML.py:36-68 | `_xml_to_dict` returns the one-key dict from the element's tag to its payload |
| NormalizeXml.AddChild | core/io/normalize/NormalizeXML.py:55-60 | adding a child puts a new tag in place, turns a repeated tag's value into a list and appends to it |
| NormalizeXml.Normalize | core/io/normalize/NormalizeXML.py:12-34 | succeeds exactly when the text parses as XML, giving `[{"root": {tag: payload}}]`; every failure is `NormalizationError` |
| NormalizeXml.PayloadsAreDicts | core/io/normalize/NormalizeXML.py:55-60 | child payloads are dicts, never lists, so grouping needs no flattening, and a tag has payloads exactly when some child has it |
| NormalizeXml.LeafPayload | core/io/normalize/NormalizeXML.py:64-66 | a leaf has exactly the keys `attributes` and `value`: its attributes and its stripped text, or None when there is none or it is empty |
| NormalizeXml.InnerPayload | core/io/normalize/NormalizeXML.py:49-63 | an inner element maps each child tag to its payload, or the list of them when repeated; the `attributes` key holds the attributes unless a child is tagged `attributes`; the element's own text is dropped |
| XmlTree.LeafText | core/io/XML.py:154-155 | a leaf reads as None when its text is absent or empty, and otherwise as its stripped text |
| XmlTree.CollapseGetStep | core/io/XML.py:162-168 | folding one more child keeps, for every tag, the value as the grouping of the children seen so far |
| XmlTree.CollapseGetSameTag | core/io/XML.py:163-166 | a repeated tag's value becomes the list of all its children's values |
| XmlTree.CollapseAllGet | core/io/XML.py:158-170 | after the loop each tag holds its single child's value, or the list of its children's values when repeated |
| XmlTree.CollapseAllKeys | core/io/XML.py:158-170 | the result's keys are the distinct child tags in order of first appearance |
| XmlTree.CollapseAllDistinct | core/io/XML.py:158-170 | the result has no repeated key |
| XmlTree.Parsed | core/io/XML.py:143-170 | `parse_element` never returns a list: a leaf gives its text or None, an inner element a dict |
| XmlTree.ParsedChildren | core/io/XML.py:159-160 | each child is parsed under its tag, in document order |
| XmlTree.CollapsePrefixStep | core/io/XML.py:159-168 | the loop over children folds one child at a time into `result` |
| XmlTree.WrapThenAppend | core/io/XML.py:163-166 | wrapping an existing value in a list and appending equals appending to it in one step |
| XmlTree.ParseElement | core/io/XML.py:143-170 | the recursive method computes the parsed value of the element |
| XmlTree.ParsedInner | core/io/XML.py:157-170 | an inner element parses to a dict keyed by its distinct child tags, each holding the grouping of that tag's children; its own text and attributes are dropped |
| XmlTree.PayloadsOfParsedNoList | core/io/XML.py:163-166 | parsed children are never lists, so a repeated tag's list is exactly its children's values |
| XmlTree.CollapseAllFresh | core/io/XML.py:167-168 | children with distinct tags give the dict of those pairs in order |
| XmlTree.Leaves | core/io/XML.py:154-155 | a flat record of texts becomes leaf elements, one per key |
| XmlTree.ParsedLeaves | core/io/XML.py:143-170 | an element whose children are the leaves of a flat record of stripped, non-empty texts parses back to that record |
| XmlTree.ParsedLeaf | core/io/XML.py:154-155 | such a leaf parses back to its text |
| XmlTree.CollapseOneTag | core/io/XML.py:163-166 | children that all share one tag group into a single key holding all their values |
| Validate.CheckHostname | core/Validate.py:96-100 | a host name is accepted exactly when it is non-empty, at most 255 characters, does not end in a dot and every dot-separated part matches the label pattern; the result is its lower case; the empty name fails on `hostname[-1]` with `IndexError`, every other rejection is `ValidationError` |
| Validate.ValidateHostname | core/Validate.py:83-100 | `validate_hostname` as written: the label test is `re.match` with `$`, which also matches before one final newline |
| Validate.ValidateHostnameStrict | core/Validate.py:98 | the label test anchored at the true end of the text (`\Z`): the same conditions with labels of 1 to 63 letters, digits and hyphens only |
| Validate.LowerLdhRun | core/Validate.py:98 | lower-casing keeps a run of letters, digits and hyphens such a run |
| Validate.LowerLabelMatches | core/Validate.py:98 | lower-casing keeps a label matching the pattern |
| Validate.HostnameIdempotent | core/Validate.py:83-100 | a validated host name validates to itself |
| Validate.StrictHostnameCharacters | core/Validate.py:98 | a strictly valid host name holds only letters, digits, hyphens and dots, its result only lower-case letters, digits, hyphens and dots, and it has no empty label |
| Validate.HostnameExamples | core/Validate.py:96-99 | `""` raises `IndexError`; `"a."` (trailing dot), `"a..b"` (empty label) and `"a_b"` (underscore) raise `ValidationError` |
| Validate.HostnameLowered | core/Validate.py:100 | `"Ab"` is returned as `"ab"` |
| Validate.EmptyLabelExample | core/Validate.py:98 | splitting `"a..b"` on dots yields an empty label |
| Validate.TrailingNewlineAccepted | core/Validate.py:98 | `"ab\n"` is accepted as written and returned with its newline; the strict version rejects it |
| Validate.InnerNewlineLabels | core/Validate.py:96-98 | `"a\n.b"` splits into the labels `"a\n"` and `"b"`, which all match as written and not in full |
| Validate.InnerNewlineAccepted | core/Validate.py:96-98 | a newline may end any label, not only the last: `"a\n.b"` is accepted as written and returned unchanged; the strict version rejects it |
| Validate.ValidateNonEmptyString | core/Validate.py:103-119 | succeeds exactly on a text that is not blank, returning it stripped; a blank or falsy value raises `ValidationError`, and a truthy non-text has no `.strip()` and raises `AttributeError` |
| Validate.NonEmptyStringIdempotent | core/Validate.py:117-119 | the result is non-empty, has no white space at either end, and validates to itself |
| Validate.ValidateCompatibility | core/Validate.py:35-51 | returns True exactly when `dtype1.is_compatible(dtype2)` and raises `ConversionError` otherwise |
| Validate.CompatibilityExamples | core/Validate.py:49-51 | Numeric accepts Integer but not the reverse, two list types are compatible whatever their inner types, and a null type accepts every type |
| Parser.FieldNames | core/io/parser.py:53 | `self.schema.fields.keys()` exists exactly when the schema is a struct, and is its key list |
| Parser.RowOf | core/io/parser.py:53 | a row holds each schema field's value in the record, None when absent |
| Parser.Projected | core/io/parser.py:91-94 | each record restricted to exactly the schema's fields, in the schema's order, missing ones as None |
| Parser.StructSchema | core/io/parser.py:31-38 | `infer_schema` succeeds exactly on a dict whose schema can be inferred, returning that struct (with distinct keys); every failure is `ConversionError` |
| Parser.OnlyDictsInferStructs | core/io/parser.py:33-34 | only a dict infers a struct schema, and that struct's keys are distinct |
| Parser.RecordListRejected | core/io/parser.py:33-34 | a list of records, although documented as accepted, always fails: its schema is a list type |
| Parser.RowsOf | core/io/parser.py:40-57 | `to_rows` succeeds exactly on no data, or with a struct schema whose fields are empty or whose records are all dicts; each row lists the record's values in field order, None for a missing field |
| Parser.ColumnsUpTo | core/io/parser.py:70-73 | the columns after some records have exactly the schema's field names |
| Parser.ColumnsOf | core/io/parser.py:59-76 | `to_columns` succeeds exactly with a struct schema whose fields are empty or whose records are all dicts; one column per field, each holding every record's value for it, None when absent |
| Parser.RowsAreColumnsTransposed | core/io/parser.py:50-74 | the rows and the columns of the same data hold the same cells, transposed |
| Parser.CastRow | core/io/parser.py:91-94 | a row is zipped with the fields (the shorter one decides the length) and each cell cast to its field type; it succeeds exactly when every cast does |
| Parser.CastCells | core/io/parser.py:92-93 | each of the zipped cells is cast to its field's type |
| Parser.CastRows | core/io/parser.py:90-95 | each row is cast, in order |
| Parser.FromRowsOf | core/io/parser.py:78-98 | `from_rows` succeeds exactly on no rows, or with a struct schema under which every row casts; every failure is `ConversionError` |
| Parser.RowsRoundTrip | core/io/parser.py:40-98 | `from_rows(to_rows(data))` gives each record projected onto the schema's fields, when every value already casts to itself |
| Parser.FromColumns | core/io/parser.py:100-117 | `from_columns` succeeds exactly when there is a column, the first has a `len` (a list, str or dict) and, unless that length is 0, every column can be indexed below it (a list or str at least that long); record `i` maps each column name to that column's `i`-th item or character; failures are `ConversionError` |
| Parser.FromColumnsExamples | core/io/parser.py:110-117 | a str column is read character by character (`{"a": "xy"}` gives two records), an empty str or dict first column gives no records, and a non-empty dict or an int column is a `ConversionError` |
| Parser.ColumnsRoundTrip | core/io/parser.py:59-117 | `from_columns(to_columns(data))` gives each record projected onto the schema's fields, for a non-empty struct schema and a list of dicts |
| Parser.RecordOf | core/io/parser.py:148 | each child element becomes a dict |
| Parser.SubPairs | core/io/parser.py:148 | the record comprehension visits each sub-element's tag and text, in order |
| Parser.XmlRecords | core/io/parser.py:144-152 | `parse_xml` succeeds exactly when the text parses, giving one record per child of the root; failures are `ConversionError` |
| Parser.RecordKeysDistinct | core/io/parser.py:148 | a record's keys are distinct |
| Parser.RecordLastWins | core/io/parser.py:148 | a repeated sub-element tag keeps the text of its last occurrence |
| Parser.LastTagIndex | core/io/parser.py:148 | the last position holding a tag |
| Parser.GenericParser.constructor | core/io/parser.py:18-19 | the parser stores the given schema |
| Parser.GenericParser.InferSchema | core/io/parser.py:21-38 | returns the struct schema of the data and stores it; on failure the stored schema is unchanged |
| Parser.GenericParser.ToRows | core/io/parser.py:40-57 | the loop computes `to_rows` for the stored schema |
| Parser.GenericParser.FromRows | core/io/parser.py:78-98 | the loop computes `from_rows` for the stored schema |
| Parser.GenericParser.ParseJson | core/io/parser.py:119-132 | succeeds exactly when `json.loads` does, with its value; otherwise `ConversionError` |
| Parser.GenericParser.ParseXml | core/io/parser.py:134-152 | the loop computes the records of `parse_xml` |
| Parser.GenericParser.ToColumns | core/io/parser.py:59-76 | the nested loops compute `to_columns` for the stored schema |
| Parser.PartlyAppended | core/io/parser.py:72-73 | midway through a record, the columns still have exactly the schema's field names |
| Parser.AppendRecord | core/io/parser.py:72-73 | the inner loop appends one record's values to every column; it fails exactly when there are fields and the record is not a dict |
| Parser.AppendStep | core/io/parser.py:73 | appending one field's value advances the partial columns by one field |
| Parser.ColumnGrows | core/io/parser.py:73 | appending to a column gives the column of the first records' values for that field |
| Parser.NextColumn | core/io/parser.py:73 | replacing one column by its extension gives the next partial state |
| Parser.ParseJsonAgreesWithNormalize | core/io/parser.py:129-132 | `parse_json` and `Normalization.normalize_json` on a text succeed together with the same value, and fail with `ConversionError` and `NormalizationError` respectively |
| IoXml.NormalizeInput | core/io/XML.py:17-46 | a dict is kept, a list holding one dict is unwrapped, any other list (the empty one included) is wrapped under `root`, a text succeeds exactly when `json.loads` gives a dict or list, and every other input fails; the result is a dict and every failure is `ConversionError` |
| IoXml.NormalizeInputIdempotent | core/io/XML.py:17-46 | normalising a normalised input changes nothing |
| IoXml.DiffersFromNormalization | core/io/XML.py:38-42 | this `normalize_input` differs from `Normalization.normalize_input`: it unwraps a single dict with two keys, which the other wraps under `root`, and it accepts `[]`, which the other rejects |
| IoXml.EntriesOrEmpty | core/io/XML.py:75 | `(value or {}).items()` exists exactly for a falsy value or a dict, and yields the dict's entries |
| IoXml.ElementsOrEmpty | core/io/XML.py:79 | `value or []` is iterable exactly for a falsy value or an iterable value, and yields a list's items |
| IoXml.ItemSchema | core/io/XML.py:81 | an item's schema is the inner struct, or `NestedNullType` for any other inner type |
| IoXml.Built | core/io/XML.py:62-88 | `build_element` fails only with `ConversionError`, tags the child with its key and no attributes, writes an empty text under a null schema and `str(value)` under a scalar schema |
| IoXml.FieldResults | core/io/XML.py:75-77 | each entry is built under its key with that field's schema (`NestedNullType` when the schema lacks it) |
| IoXml.BuiltFields | core/io/XML.py:74-77 | a struct's children succeed exactly when the value is falsy or a dict and every entry builds; one child per entry, in order |
| IoXml.Wrapped | core/io/XML.py:80-82 | each list item is built inside an `item` wrapper |
| IoXml.ItemResults | core/io/XML.py:79-82 | each list item is built as `item` inside its own `item` wrapper |
| IoXml.BuiltItems | core/io/XML.py:78-82 | a list's children succeed exactly when the value is falsy or iterable and every item builds; each child is an `item` wrapper around one built `item` |
| IoXml.BuildElement | core/io/XML.py:62-88 | the recursive method builds the element `build_element` describes |
| IoXml.BuildFields | core/io/XML.py:74-77 | the loop builds the children of a struct |
| IoXml.BuildItems | core/io/XML.py:78-82 | the loop builds the wrapped children of a list |
| IoXml.RecordResults | core/io/XML.py:108-113 | each root list item becomes an `item` element holding its fields |
| IoXml.RootChildren | core/io/XML.py:107-119 | a root schema that is neither list nor struct fails; a struct root builds the fields of the root value, and fails with `ConversionError` when the value is not a dict |
| IoXml.ToXmlTree | core/io/XML.py:49-123 | `to_xml` fails only with `ConversionError`; on success the input normalised to a non-empty dict whose schema was inferred, and the root element carries the first key as its tag |
| IoXml.ToXml | core/io/XML.py:49-123 | the method builds the tree `to_xml` serialises |
| IoXml.BuildRoot | core/io/XML.py:107-119 | the root loops build the root's children |
| IoXml.ParsedItems | core/io/XML.py:176 | each child of the root is parsed, in order |
| IoXml.FromTree | core/io/XML.py:172-187 | the parsed root is `{root.tag: [parsed children]}` with its inferred schema; failures are `ConversionError` |
| IoXml.FromXml | core/io/XML.py:127-187 | `from_xml` succeeds only on a text that parses, and then equals the parsed tree's reading; failures are `ConversionError` |
| IoXml.InferXmlSchema | core/io/XML.py:189-207 | `infer_schema` returns the schema `from_xml` inferred, and `ConversionError` when that fails |
| IoXml.DescribeXmlSchema | core/io/XML.py:209-227 | `describe_schema` describes that schema, and fails with `ConversionError` exactly when `from_xml` does |
| IoXml.FlatRecordRoundTrip | core/io/XML.py:62-88 | a flat record of texts under scalar field schemas is built and parses back to itself |
| IoXml.ScalarItemsEmptied | core/io/XML.py:81-86 | a list of scalars is written as empty `item` elements: the item schema becomes `NestedNullType`, so every value is lost |
| IoXml.ParsedIgnoresTag | core/io/XML.py:143-170 | parsing an element does not look at its own tag |
| IoXml.FromTreeIgnoresChildTags | core/io/XML.py:176 | renaming the root's children changes nothing `from_xml` returns: child tags are lost |
| IoXml.StringSchema | core/DataTypes/Schema.py:124-125 | the schema of a text is its inferred text type |
| IoXml.FlatValuesInfer | core/DataTypes/Schema.py:113-118 | the values of a flat record whose schema can be inferred also have a list schema |
| IoXml.FlatRecordTree | core/io/XML.py:90-121 | writing `{key: flat record}` gives a root tagged `key` with one text leaf per field |
| IoXml.FlatFieldsBuilt | core/io/XML.py:74-77 | a flat record's fields are built as its leaves |
| IoXml.OneKeyTree | core/io/XML.py:90-121 | a one-key dict whose value has a struct schema is written as a root of that key holding the value's fields |
| IoXml.FlatRecordThroughXml | core/io/XML.py:49-187 | writing `{key: flat record}` and reading it back gives `{key: [values]}`: the record's keys are lost on the way back |
| AdapterXml.ConcatSnoc | core/Adapters/XML.py:43-44 | appending one more run of siblings extends the concatenation by that run |
| AdapterXml.ConcatSingles | core/Adapters/XML.py:59-61 | runs of one element each concatenate to those elements |
| AdapterXml.Built | core/Adapters/XML.py:26-49 | `build_element` fails only with `ConversionError`; it always adds a first child tagged with the key and no attributes, and under a scalar or null schema that child's text is `ConversionMap.to_xml(value, schema)` |
| AdapterXml.FieldResults | core/Adapters/XML.py:39-41 | each entry is built under its key with that field's schema (`NestedNullType` when the schema lacks it) |
| AdapterXml.BuiltFields | core/Adapters/XML.py:38-41 | a struct's children succeed exactly when the value is a dict and every entry builds; they are the entries' elements in order |
| AdapterXml.ItemResults | core/Adapters/XML.py:43-44 | each list item is built under the list's own key with the inner schema, into the same parent |
| AdapterXml.BuiltItems | core/Adapters/XML.py:42-44 | the list's siblings succeed exactly when the value is iterable and every item builds; they are the items' elements, concatenated |
| AdapterXml.BuildElement | core/Adapters/XML.py:26-49 | the recursive method appends the elements `build_element` describes |
| AdapterXml.BuildFields | core/Adapters/XML.py:38-41 | the loop builds the children of a struct |
| AdapterXml.BuildItems | core/Adapters/XML.py:42-44 | the loop builds the siblings of a list |
| AdapterXml.RecordResults | core/Adapters/XML.py:57-61 | each normalised record's fields are built directly under the root |
| AdapterXml.RootChildren | core/Adapters/XML.py:56-67 | a list schema builds every record's fields under the root, in order, and succeeds exactly when all of them build; a struct schema builds the fields of the data; any other schema fails |
| AdapterXml.NormalizedSchemaIsList | core/Adapters/XML.py:52-62 | after `normalize_input` the data is a list, so its schema is a list type and the struct branch at lines 62-65 is dead |
| AdapterXml.ToXmlTree | core/Adapters/XML.py:51-71 | `to_xml` fails only with `ConversionError`, fails whenever `normalize_input` does, and otherwise gives a `root` element whose children are the built records |
| AdapterXml.BuildRecords | core/Adapters/XML.py:56-61 | the nested loops build the root's children |
| AdapterXml.ToXml | core/Adapters/XML.py:13-71 | the method builds the tree `to_xml` serialises |
| AdapterXml.FromTree | core/Adapters/XML.py:118-133 | a root without children fails (its text is not a dict); otherwise the data is `[parse_element(root)]` with its inferred schema; failures are `ConversionError` |
| AdapterXml.FromXml | core/Adapters/XML.py:74-133 | `from_xml` succeeds only on a text that parses, and then equals the parsed tree's reading; failures are `ConversionError` |
| AdapterXml.InferXmlSchema | core/Adapters/XML.py:136-154 | `infer_schema` returns the schema `from_xml` inferred, and `ConversionError` when that fails |
| AdapterXml.DescribeXmlSchema | core/Adapters/XML.py:156-174 | `describe_schema` describes that schema, and fails with `ConversionError` exactly when `from_xml` does |
| AdapterXml.TextWrittenAsIs | core/DataTypes/Map.py:36-43 | a text is written unchanged under the Integer, Decimal, Datetime and String schemas that text inference produces |
| AdapterXml.FlatFieldsBuilt | core/Adapters/XML.py:38-41 | a flat record of texts is built as one text leaf per field |
| AdapterXml.RecordTree | core/Adapters/XML.py:51-69 | a flat record is written as a `root` holding one leaf per field |
| AdapterXml.RecordRoundTrip | core/Adapters/XML.py:13-133 | for a flat record of stripped, non-empty texts, `from_xml(to_xml(d))` gives back `normalize_input(d)` and its schema |
| AdapterXml.ListSiblings | core/Adapters/XML.py:42-47 | a list of scalars is written as an empty element for the list followed by one sibling per item under the same key |
| AdapterXml.Strings | core/Adapters/XML.py:43-44 | a list of texts as values |
| AdapterXml.StringSiblings | core/Adapters/XML.py:42-47 | a list of `n` texts becomes `n + 1` siblings: the empty one, then each text |
| AdapterXml.ListChildParsed | core/Adapters/XML.py:99-101 | the first sibling reads back as None and sibling `i + 1` as text `i` |
| AdapterXml.ListReadBack | core/Adapters/XML.py:13-133 | a list of texts written and read back gains a leading None: the list does not round-trip |
| XmlIo.NormalizeInput | core/io/xml_io.py:9-26 | succeeds exactly when the text parses as XML, giving `NormalizeXML.normalize`'s `[{"root": {tag: payload}}]`; every failure is `ConversionError` |
| XmlIo.Built | core/io/xml_io.py:42-64 | `build_element` tags the child with its key and no attributes: a dict gives one child per entry, a list one `item` child per item, None an empty text and any other value `str(value)` |
| XmlIo.BuiltEntries | core/io/xml_io.py:53-55 | each entry is built under its key, in order |
| XmlIo.BuiltItems | core/io/xml_io.py:56-58 | each item is built under the tag `item`, in order |
| XmlIo.BuildElement | core/io/xml_io.py:42-64 | the recursive method builds the element `build_element` describes |
| XmlIo.BuildEntries | core/io/xml_io.py:53-55 | the loop builds a dict's children |
| XmlIo.BuildItems | core/io/xml_io.py:56-58 | the loop builds a list's children |
| XmlIo.RootChildren | core/io/xml_io.py:73-80 | a root value that is neither list nor dict fails with `ConversionError` |
| XmlIo.ToXmlTree | core/io/xml_io.py:66-84 | `to_xml` succeeds exactly on a text that parses as XML, giving a `root` element around the element rebuilt from the parsed one's payload; failures are `ConversionError` |
| XmlIo.ToXml | core/io/xml_io.py:28-84 | the method builds the tree `to_xml` serialises |
| XmlIo.FromXml | core/io/xml_io.py:124-131 | `from_xml` always raises `ConversionError`: it hands a dict, not a text, to `normalize_input` |
| XmlIo.ParsedBuilt | core/io/xml_io.py:42-64 | a value made only of None, texts with no whitespace at either end and non-empty dicts with distinct keys, once built and parsed, is itself; lists are outside this round trip (`ParsedBuiltList`) |
| XmlIo.ParsedBuiltList | core/io/xml_io.py:56-58 | a built list parses back as None when empty and otherwise as a dict whose only key is `item` |
| IoJson.NormalizeInput | core/io/JSON.py:13-30 | succeeds exactly when `normalize_json` succeeds and yields a dict or a non-empty list of dicts; the result is always a one-key dict: a one-key dict stays as it is, another dict is wrapped as `{"root": [d]}`, a list of two or more dicts as `{"root": list}`, and an empty list fails; every failure is `ConversionError` |
| IoJson.NormalizeInputIdempotent | core/io/JSON.py:23-28 | normalising an already normalised input gives it back unchanged |
| IoJson.ToJson | core/io/JSON.py:48-67 | `to_json` succeeds exactly when the input normalises, its schema is inferred and the data can be dumped as JSON; it returns the normalised data and its inferred schema, which is a struct; every failure is `ConversionError` |
| IoJson.FromJson | core/io/JSON.py:70-93 | `from_json` succeeds exactly on a text that decodes as JSON, whose decoded value normalises and has an inferable schema; it returns that normalised value and its schema; every failure is `ConversionError` |
| IoJson.InferJsonSchema | core/io/JSON.py:144-163 | for a value that is not a text, the schema of its normalised form; every failure, including one raised inside inference, becomes `ConversionError`; a schema found is a struct |
| IoJson.DescribeJsonSchema | core/io/JSON.py:166-183 | succeeds exactly when `infer_schema` does and then gives `describe_schema` of that schema; failures are `ConversionError` |
| IoJson.ToJsonFromJson | core/io/JSON.py:48-93 | reading back the JSON text that `to_json` wrote gives the same data and schema `to_json` returned |
| IoJson.FromJsonAgreesWithInfer | core/io/JSON.py:144-163 | on a JSON text, `infer_schema` returns the schema `from_json` returns |
| AdapterRegistry.Lookup | core/utility/AdapterRegistry.py:26-42 | a lookup succeeds exactly when the category exists and holds the name, and then returns the component registered there; otherwise `ValueError` |
| AdapterRegistry.Registered | core/utility/AdapterRegistry.py:12-23 | after registering, the name in that category looks up to the component and every other (name, category) pair looks up as before; the category lists the name once, appended only when it is new; other categories list what they listed |
| AdapterRegistry.RegisteredLookups | core/utility/AdapterRegistry.py:21-23 | creating the category when missing and storing the component makes it the one found, and changes no other lookup |
| AdapterRegistry.RegisteredComponents | core/utility/AdapterRegistry.py:21-47 | storing a component keeps the category's key order, appending a new name at the end, and changes no other category's list |
| AdapterRegistry.Registry.constructor | core/utility/AdapterRegistry.py:9 | the registry starts empty |
| AdapterRegistry.Registry.Register | core/utility/AdapterRegistry.py:12-23 | the class-level table becomes the table with the component registered |
| AdapterRegistry.Registry.GetComponent | core/utility/AdapterRegistry.py:26-42 | `get` answers the lookup in the current table |
| AdapterRegistry.Registry.ListComponents | core/utility/AdapterRegistry.py:45-47 | `list_components` lists the category's names in insertion order, none for an unknown category |
| AdapterRegistry.RegisterAdapters | core/utility/AdapterRegistry.py:51-54 | `register()` registers the JSON adapter and then the XML adapter under `adapters` |
| AdapterRegistry.AdaptersRegistered | core/utility/AdapterRegistry.py:51-54 | after `register()`, both adapters are found under their names and no other category changes |
| AdapterRegistry.AdaptersListed | core/utility/AdapterRegistry.py:45-54 | on a fresh registry, `register()` leaves `adapters` listing exactly `JSON` then `XML` |
| AdapterRegistry.XmlAfterJson | core/utility/AdapterRegistry.py:21-47 | registering XML after JSON lists `JSON` then `XML` |
| AdapterRegistry.NewName | core/utility/AdapterRegistry.py:21-47 | a name new to its category is appended to that category's list |
| AdapterRegistry.FirstRegistration | core/utility/AdapterRegistry.py:21-47 | the first registration in an empty registry lists exactly that name |
| Factory.ResolvedIn | core/Factory.py:78-83 | scanning categories fails only with `ValueError` (no category knows the type) or `KeyError` (a scanned category is missing from the table) |
| Factory.ResolvedCases | core/Factory.py:75-83 | with both tables present, `from_python` returns the python table's type if it knows the key, else the numpy table's, calling a callable entry to make its instance, and raises `ValueError` otherwise |
| Factory.ResolvedSameTables | core/Factory.py:78-83 | `from_python` depends only on the `python` and `numpy` tables |
| Factory.ResolvedInSameTables | core/Factory.py:78-81 | the scan depends only on the tables of the categories scanned |
| Factory.Registered | core/Factory.py:61-73 | registering sets the category's table to its old table (or an empty one) with the mapping stored, and leaves every other category as it was |
| Factory.RegisteredConsulted | core/Factory.py:71-73 | registering a mapping never removes the `python` or `numpy` table |
| Factory.OtherCategoriesIgnored | core/Factory.py:71-83 | a mapping registered outside `python` and `numpy` (for example under `sql`) does not change what `from_python` returns |
| Factory.RegisteredKeeps | core/Factory.py:71-73 | registering leaves every other category's table unchanged |
| Factory.PythonRegistrationWins | core/Factory.py:71-83 | a type registered under `python` is then resolved to the registered entry's type |
| Factory.TypeFactory.constructor | core/Factory.py:12-59 | the factory starts with the built-in python, numpy and sql tables |
| Factory.TypeFactory.RegisterMapping | core/Factory.py:61-73 | the factory's tables become the tables with the mapping registered |
| Factory.TypeFactory.FromPython | core/Factory.py:75-83 | the loop over `python` then `numpy` returns what the resolution function gives |
| Factory.InitialIntResolution | core/Factory.py:14 | `int` maps to a fresh `IntegerType` |
| Factory.InitialListResolution | core/Factory.py:18 | `list` maps to `ListType(NestedNullType())` through its factory lambda |
| Factory.InitialDictResolution | core/Factory.py:19 | `dict` maps to an empty `StructType` |
| Factory.InitialNoneResolution | core/Factory.py:20 | `NoneType` maps to `CategoricalNullType` |
| Factory.InitialNumPyResolution | core/Factory.py:29 | `np.int64`, missing from the python table, is found in the numpy table as `IntegerType` |
| Factory.SqlNamesNotResolved | core/Factory.py:38-83 | SQL names are never resolved by `from_python`, which raises `ValueError` |

## Left out

- Text serialisation and parsing by foreign libraries (`json.loads`, `json.dumps`, `ET.fromstring`, `ET.tostring`, `int()`, `float()`, `Decimal()`, `strptime`): they are fields of `Foreign.Lib`, so every statement holds for any behaviour of them; only the tree or value they produce or consume is modelled.
- Floating point: a float is carried by its `repr`, and NaN detection is a property of that text; no arithmetic on floats is modelled.
- File I/O: every `to_file` and `from_file` (`core/io/JSON.py`, `core/io/XML.py`, `core/io/xml_io.py`, `core/Adapters/XML.py`).
- `from_normalized` in `core/io/JSON.py` is `json.dumps` alone, and in the XML adapters it repeats `to_xml`; it has no member of its own.
- `normalize_url` (`core/utility/Normalize.py:67-75` and `core/io/normalize/NormalizeUtils.py:50-59`) and `validate_url`: they are `urlparse` and a URL regex, foreign code with no logic of the core around it.
- `Validation.validate_mappings` (`core/Validate.py:12-32`): reflection over callables and classes.
- HTTP clients, subprocess wrappers, plugins, `core/DataTypes/Generic.py`, the CSV normaliser, the JSON glue adapters (`core/Adapters/JSON.py`, `core/io/json_io.py`, `core/Adapters/Converters.py`), re-export modules and exception classes are not part of this model; exceptions are the `ErrorKind` datatype.
- Imports of modules that are not among the files modelled are treated as if they resolve: `core.DataTypes.Common` (imported by `core/Validate.py`), and `core.Normalizer` and `core.DataTypes.Exceptions` (imported by `core/Adapters/XML.py`).
- `BaseArrays`: the base validity check `isinstance(value, dtype.type_cls)` reads an attribute no type class defines, so as written it raises AttributeError on any value other than None (see "## Findings" and `BaseArrays.CheckAsWritten`); the array operations are modelled over the corrected check, the parameter `typeCls`. `__repr__` is not modelled.
- BaseArrays.ValidateData: states the corrected check; in the source each item other than None at the plain check raises AttributeError, not DataTypeError.
- BaseArrays.BaseArray.Create: states the corrected check; in the source `BaseArray(data, dtype)` raises AttributeError unless every item is None (or, for `AdvancedBaseArray`, never reaches the plain check).
- BaseArrays.BaseArray.Slice: states the corrected check; in the source a slice holding an item other than None raises AttributeError.
- BaseArrays.BaseArray.SetItem: states the corrected check; in the source a value other than None raises AttributeError when it reaches the plain check.
- BaseArrays.BaseArray.FillNa: states the corrected check; in the source a fill value other than None raises AttributeError when it reaches the plain check.
- BaseArrays.BaseArray.Apply: states the corrected check; in the source a new array holding an item other than None raises AttributeError.
- BaseArrays.BaseArray.AsType: states the corrected check; in the source a new array holding a cast value other than None raises AttributeError.
- BaseArrays.AdvancedSliceRejected: states the corrected check; in the source the slice raises AttributeError (`BaseArrays.AsWrittenExamples`).
- `Text.Lower` and `Text.Upper` map ASCII letters only; Python's `str.lower` and `str.upper` also map non-ASCII letters.
- `normalize_keys` (both copies): a key collision keeps the later value, as a Python dict does; the model's association lists express this through `Dicts.Put`, not a hash table.
- `set()` ordering in `_unify_types`: the result only inspects sets of one element, so the iteration order is not modelled.
- Cast.UnionKeys: the keys of a promoted struct come in a fixed order here (the first struct's keys, then the second's new ones); `promote_types` iterates `set(f1) | set(f2)`, whose order follows string hashes and changes between processes, so the source promises the same key set and per-key field types but not this order.
- Cast.PromoteStructsSelf: its "keys in their original order" rests on the fixed order of `Cast.UnionKeys`; in the source the struct promoted with itself has the same fields in hash order.
- Cast.UnionKeysSelf: the source's union of a key set with itself is a set; the model's list in the original order is one of its iteration orders.
- Cast.PromoteIdempotent: structural equality `promote_types(t, t) == t` holds for structs only up to the order of their fields in the source, because of the hash-ordered key union.
- Cast.PromoteStructIdempotent: as for `Cast.PromoteIdempotent`, equal up to the order of the struct's fields in the source.
- Schema.InferredPromotesToItself: as for `Cast.PromoteIdempotent`, an inferred schema promotes to itself up to the order of struct fields in the source.
- Schema.IsIntegerText: accepts ASCII digits `0`-`9` only, where `str.isdigit` accepts every Unicode digit; see the next line.
- Schema.InferText: the digit test (`Schema.IsIntegerText`) is ASCII `0`-`9`; Python's `str.isdigit` also accepts other Unicode digits (`"²"`, `"١٢"`), which the source infers as IntegerType and the model sends down the Decimal, Datetime and String tests, so the Integer case is stated for ASCII digit texts only.
- BaseArrays.BaseArray: the array keeps the caller's list object, so a `__setitem__` or `fillna` is also seen through that list in Python; the model's `data` field is a value and this aliasing is not modelled.
- BaseArrays.SliceOf: `data[index]` with a slice honours the slice's step in Python; the model reads only `start` and `stop`, so it covers slices whose step is absent or 1.
- `Factory`: native types are named (`Python("int")`, `NumPy("int64")`, `Text("bigint")`) instead of Python type objects, and a table entry is either a class (called to make an instance) or a factory lambda with the type it makes.
- `AdapterRegistry`: components are a datatype naming the JSON and XML adapters or any other component by name, not the adapter classes themselves.

## Findings

| source | as written | input that shows it | evidently intended | confidence | as-written member | corrected member |
|---|---|---|---|---|---|---|
| core/Validate.py:98 | each label is checked with `re.match` and a pattern ending in `$`, which also matches before a final newline; the name is split at the dots first, so any label may end in a newline, and the name is returned with it | `"ab\n"` is accepted and returned as `"ab\n"` (and `"a\n.b"` likewise, `Validate.InnerNewlineAccepted`) | a label must consist of letters, digits and hyphens only (a full match), so `"ab\n"` is rejected with `ValidationError` | not executed | Validate.TrailingNewlineAccepted | Validate.ValidateHostnameStrict |
| core/DataTypes/Base.py:52 | the plain check is `isinstance(value, dtype.type_cls)`, and no type class defines `type_cls`, so every value other than None that reaches it raises AttributeError: no plain `BaseArray` holds anything but None, and `__setitem__`, `fillna`, `apply`, `astype`, slicing and the leaves of `AdvancedBaseArray` raise the same | `BaseArray([1], IntegerType())` raises AttributeError | each value is tested against the Python class of its declared type, and a value of another class raises `DataTypeError` | not executed | BaseArrays.PlainHoldsOnlyNone | BaseArrays.ValidateData |
