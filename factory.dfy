/** `TypeFactory` of core/Factory.py: the class attribute `MAPPINGS`, a table from a type
    system (`"python"`, `"numpy"`, `"sql"`, ...) to a table from native types to data types,
    updated in place by `register_mapping` and read by `from_python`. Both levels keep Python's
    insertion order (`Dicts.Dict`). */
module Factory {
  import opened Wrappers
  import opened Dicts
  import opened Types

  /** A key of a type table: a Python type object (builtin or from the standard library), a
      NumPy scalar type, each by its name, or a string such as the SQL type names. */
  datatype Native = PyType(name: string) | NumPyType(name: string) | Text(s: string)

  /** A table entry: a callable (a `DataType` class or a lambda), which `from_python` calls,
      or any other object, which it returns as it is. Either way it stands for one type. */
  datatype Entry = Callable(made: DataType) | Fixed(value: DataType)

  type Mappings = Dict<string, Dict<Native, Entry>>

  /** `dtype() if callable(dtype) else dtype`. */
  function Produced(e: Entry): DataType
  {
    match e
    case Callable(t) => t
    case Fixed(t) => t
  }

  function Python(name: string): Native
  {
    PyType(name)
  }

  function NumPy(name: string): Native
  {
    NumPyType(name)
  }

  /** The `"python"` table of `MAPPINGS`. */
  function PythonTable(): Dict<Native, Entry>
  {
    [(Python("int"), Callable(IntegerType)),
     (Python("float"), Callable(FloatType)),
     (Python("bool"), Callable(BooleanType)),
     (Python("str"), Callable(StringType)),
     (Python("list"), Callable(ListType(NestedNullType))),
     (Python("dict"), Callable(StructType([]))),
     (Python("NoneType"), Callable(CategoricalNullType)),
     (Python("datetime.datetime"), Callable(DatetimeType)),
     (Python("datetime.date"), Callable(DateType)),
     (Python("datetime.time"), Callable(TimeType)),
     (Python("datetime.timedelta"), Callable(DurationType)),
     (Python("decimal.Decimal"), Callable(DecimalType))]
  }

  /** The `"numpy"` table of `MAPPINGS`. */
  function NumPyTable(): Dict<Native, Entry>
  {
    [(NumPy("int32"), Callable(IntegerType)),
     (NumPy("int64"), Callable(IntegerType)),
     (NumPy("float32"), Callable(FloatType)),
     (NumPy("float64"), Callable(FloatType)),
     (NumPy("bool_"), Callable(BooleanType)),
     (NumPy("object_"), Callable(StringType)),
     (NumPy("str_"), Callable(StringType)),
     (NumPy("bytes_"), Callable(BinaryType)),
     (NumPy("datetime64"), Callable(DatetimeType))]
  }

  /** The `"sql"` table of `MAPPINGS`, keyed by type name. */
  function SqlTable(): Dict<Native, Entry>
  {
    [(Text("bigint"), Callable(FloatType)),
     (Text("binary"), Callable(BinaryType)),
     (Text("bit"), Callable(BooleanType)),
     (Text("char"), Callable(StringType)),
     (Text("date"), Callable(DateType)),
     (Text("datetime"), Callable(DatetimeType)),
     (Text("float"), Callable(FloatType)),
     (Text("nchar"), Callable(StringType)),
     (Text("nvarchar"), Callable(StringType)),
     (Text("nvarchar(max)"), Callable(StringType)),
     (Text("real"), Callable(FloatType)),
     (Text("smalldatetime"), Callable(DatetimeType)),
     (Text("smallint"), Callable(IntegerType)),
     (Text("tinyint"), Callable(IntegerType)),
     (Text("uniqueidentifier"), Callable(StringType)),
     (Text("varbinary"), Callable(BinaryType)),
     (Text("varbinary(max)"), Callable(BinaryType)),
     (Text("varchar(n)"), Callable(StringType)),
     (Text("varchar(max)"), Callable(StringType))]
  }

  /** `MAPPINGS` as the class defines it. */
  function InitialMappings(): Mappings
  {
    [("python", PythonTable()), ("numpy", NumPyTable()), ("sql", SqlTable())]
  }

  /** The loop of `from_python` over the remaining categories: the first table holding the key
      gives its type; a category missing from `MAPPINGS` raises KeyError; running out of
      categories raises ValueError. */
  function ResolvedIn(m: Mappings, categories: seq<string>, key: Native): (r: Result<DataType>)
    ensures r.Err? ==> r.error == ValueError || r.error == KeyError
  {
    if categories == [] then Err(ValueError)
    else
      match Get(m, categories[0])
      case None => Err(KeyError)
      case Some(table) =>
        match Get(table, key)
        case Some(e) => Ok(Produced(e))
        case None =>
          ResolvedIn(m, categories[1..], key)
  }

  /** `from_python(input_type)`: `"python"` first, then `"numpy"`. */
  function Resolved(m: Mappings, key: Native): (r: Result<DataType>)
  {
    ResolvedIn(m, ["python", "numpy"], key)
  }

  /** Both tables `from_python` reads are present. */
  predicate Consulted(m: Mappings)
  {
    HasKey(m, "python") && HasKey(m, "numpy")
  }

  /** `from_python` in closed form, given both tables: the `"python"` table wins, the
      `"numpy"` table is tried next, and a key in neither (whatever other categories such as
      `"sql"` hold) raises ValueError. */
  lemma ResolvedCases(m: Mappings, key: Native)
    requires Consulted(m)
    ensures var python := Get(m, "python").value;
            var numpy := Get(m, "numpy").value;
            Resolved(m, key) ==
              if HasKey(python, key) then Ok(Produced(Get(python, key).value))
              else if HasKey(numpy, key) then Ok(Produced(Get(numpy, key).value))
              else Err(ValueError)
  {
    var numpy := Get(m, "numpy").value;
    assert ["python", "numpy"][1..] == ["numpy"];
    assert ["numpy"][1..] == [];
    assert ResolvedIn(m, [], key) == Err(ValueError);
    assert ResolvedIn(m, ["numpy"], key) ==
           if HasKey(numpy, key) then Ok(Produced(Get(numpy, key).value)) else Err(ValueError);
  }

  /** `from_python` reads only the `"python"` and `"numpy"` tables. */
  lemma ResolvedSameTables(m: Mappings, m': Mappings, key: Native)
    requires Get(m, "python") == Get(m', "python") && Get(m, "numpy") == Get(m', "numpy")
    ensures Resolved(m, key) == Resolved(m', key)
  {
    var categories := ["python", "numpy"];
    assert categories[0] == "python" && categories[1] == "numpy";
    ResolvedInSameTables(m, m', categories, key);
  }

  /** `from_python` reads only the tables of the categories it loops over. */
  lemma {:induction false} ResolvedInSameTables(m: Mappings, m': Mappings, categories: seq<string>, key: Native)
    requires forall i :: 0 <= i < |categories| ==> Get(m, categories[i]) == Get(m', categories[i])
    ensures ResolvedIn(m, categories, key) == ResolvedIn(m', categories, key)
  {
    if categories != [] {
      ResolvedInSameTables(m, m', categories[1..], key);
    }
  }

  /** The class attribute `TypeFactory.MAPPINGS` and the class methods over it. */
  class TypeFactory {
    var mappings: Mappings

    /** The tables as the class defines them. */
    constructor()
      ensures mappings == InitialMappings()
    {
      mappings := InitialMappings();
    }

    /** `register_mapping(category, native_type, data_type)`: the category created on first
        use, then the entry set, overwriting an earlier one. */
    method RegisterMapping(category: string, native: Native, entry: Entry)
      modifies this
      ensures mappings == Registered(old(mappings), category, native, entry)
    {
      if !HasKey(mappings, category) {
        PutNew(mappings, category, [], Put([], native, entry));
        mappings := mappings + [(category, [])];
      }
      var table := Get(mappings, category).value;
      mappings := Put(mappings, category, Put(table, native, entry));
    }

    /** `from_python(input_type)`: the loop over `["python", "numpy"]`, returning at the first
        table that holds the key. */
    method FromPython(key: Native) returns (r: Result<DataType>)
      ensures r == Resolved(mappings, key)
    {
      var categories := ["python", "numpy"];
      var i := 0;
      while i < |categories|
        invariant 0 <= i <= |categories|
        invariant ResolvedIn(mappings, categories[i..], key) == Resolved(mappings, key)
      {
        assert categories[i..][1..] == categories[i + 1..];
        var table := Get(mappings, categories[i]);
        if table.None? {
          return Err(KeyError);
        }
        var entry := Get(table.value, key);
        if entry.Some? {
          return Ok(Produced(entry.value));
        }
        i := i + 1;
      }
      return Err(ValueError);
    }
  }

  /** The tables after `register_mapping(category, native, entry)`. */
  function Registered(m: Mappings, category: string, native: Native, entry: Entry): (m': Mappings)
    ensures Get(m', category) == Some(Put(GetOr(m, category, []), native, entry))
    ensures forall c :: c != category ==> Get(m', c) == Get(m, c)
  {
    var m' := Put(m, category, Put(GetOr(m, category, []), native, entry));
    GetPut(m, category, Put(GetOr(m, category, []), native, entry), category);
    forall c | c != category
      ensures Get(m', c) == Get(m, c)
    {
      GetPut(m, category, Put(GetOr(m, category, []), native, entry), c);
    }
    m'
  }

  lemma {:induction false} PutNew<K, V>(d: Dict<K, V>, k: K, v0: V, v: V)
    requires !HasKey(d, k)
    ensures Put(d + [(k, v0)], k, v) == Put(d, k, v)
  {
    if d != [] {
      assert (d + [(k, v0)])[1..] == d[1..] + [(k, v0)];
      PutNew(d[1..], k, v0, v);
    }
  }

  /** Registering keeps both consulted tables present, so `from_python` never meets a missing
      category on a factory built by the class. */
  lemma RegisteredConsulted(m: Mappings, category: string, native: Native, entry: Entry)
    requires Consulted(m)
    ensures Consulted(Registered(m, category, native, entry))
  {
    var m' := Registered(m, category, native, entry);
    assert Get(m', "python").Some? && Get(m', "numpy").Some?;
  }

  /** A mapping registered under a category other than `"python"` and `"numpy"` (such as
      `"sql"`) changes nothing `from_python` returns. */
  lemma OtherCategoriesIgnored(m: Mappings, category: string, native: Native, entry: Entry, key: Native)
    requires category != "python" && category != "numpy"
    ensures Resolved(Registered(m, category, native, entry), key) == Resolved(m, key)
  {
    RegisteredKeeps(m, category, native, entry, "python");
    RegisteredKeeps(m, category, native, entry, "numpy");
    ResolvedSameTables(m, Registered(m, category, native, entry), key);
  }

  lemma RegisteredKeeps(m: Mappings, category: string, native: Native, entry: Entry, c: string)
    requires c != category
    ensures Get(Registered(m, category, native, entry), c) == Get(m, c)
  {
  }

  /** A mapping registered under `"python"` is what `from_python` returns for that type from
      then on, whatever `"numpy"` holds. */
  lemma PythonRegistrationWins(m: Mappings, native: Native, entry: Entry)
    ensures Resolved(Registered(m, "python", native, entry), native) == Ok(Produced(entry))
  {
    var table := GetOr(m, "python", []);
    GetPut(table, native, entry, native);
  }

  /** A lookup finds the first entry under the key. */
  lemma {:induction false} GetFirst<V>(d: Dict<Native, V>, k: Native, i: nat)
    requires i < |d| && d[i].0 == k
    requires forall j :: 0 <= j < i ==> d[j].0 != k
    ensures Get(d, k) == Some(d[i].1)
  {
    if i > 0 {
      GetFirst(d[1..], k, i - 1);
    }
  }

  /** The class's own table: `int` gives IntegerType. */
  lemma InitialIntResolution()
    ensures Resolved(InitialMappings(), Python("int")) == Ok(IntegerType)
  {
    var m := InitialMappings();
    assert Get(m, "python") == Some(PythonTable());
    assert Get(m, "numpy") == Some(NumPyTable());
    GetFirst(PythonTable(), Python("int"), 0);
    ResolvedCases(m, Python("int"));
  }

  /** `list` gives a list of items of unknown type. */
  lemma InitialListResolution()
    ensures Resolved(InitialMappings(), Python("list")) == Ok(ListType(NestedNullType))
  {
    var m := InitialMappings();
    var t := PythonTable();
    assert Get(m, "python") == Some(t);
    assert Get(m, "numpy") == Some(NumPyTable());
    assert "list"[0] != "bool"[0];
    assert forall j :: 0 <= j < 4 ==> t[j].0 != Python("list");
    GetFirst(t, Python("list"), 4);
    ResolvedCases(m, Python("list"));
  }

  /** `dict` gives the struct of no fields. */
  lemma InitialDictResolution()
    ensures Resolved(InitialMappings(), Python("dict")) == Ok(StructType([]))
  {
    var m := InitialMappings();
    var t := PythonTable();
    assert Get(m, "python") == Some(t);
    assert Get(m, "numpy") == Some(NumPyTable());
    assert "dict"[0] != "bool"[0] && "dict"[0] != "list"[0];
    assert forall j :: 0 <= j < 5 ==> t[j].0 != Python("dict");
    GetFirst(t, Python("dict"), 5);
    ResolvedCases(m, Python("dict"));
  }

  /** `NoneType` gives CategoricalNullType. */
  lemma InitialNoneResolution()
    ensures Resolved(InitialMappings(), Python("NoneType")) == Ok(CategoricalNullType)
  {
    var m := InitialMappings();
    var t := PythonTable();
    assert Get(m, "python") == Some(t);
    assert Get(m, "numpy") == Some(NumPyTable());
    assert forall j :: 0 <= j < 6 ==> |t[j].0.name| < 8;
    GetFirst(t, Python("NoneType"), 6);
    ResolvedCases(m, Python("NoneType"));
  }

  /** NumPy's `int64`, absent from the Python table, is found in the NumPy table. */
  lemma InitialNumPyResolution()
    ensures Resolved(InitialMappings(), NumPy("int64")) == Ok(IntegerType)
  {
    var m := InitialMappings();
    assert Get(m, "python") == Some(PythonTable());
    assert Get(m, "numpy") == Some(NumPyTable());
    assert !HasKey(PythonTable(), NumPy("int64"));
    assert "int32"[3] != "int64"[3];
    GetFirst(NumPyTable(), NumPy("int64"), 1);
    ResolvedCases(m, NumPy("int64"));
  }

  /** A SQL type name such as `"bigint"`, although in the `"sql"` table, is not found: only the
      Python and NumPy tables are read. */
  lemma SqlNamesNotResolved()
    ensures Resolved(InitialMappings(), Text("bigint")) == Err(ValueError)
  {
    var m := InitialMappings();
    assert Get(m, "python") == Some(PythonTable());
    assert Get(m, "numpy") == Some(NumPyTable());
    assert !HasKey(PythonTable(), Text("bigint"));
    assert !HasKey(NumPyTable(), Text("bigint"));
    ResolvedCases(m, Text("bigint"));
  }
}
