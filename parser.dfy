/** `GenericParser` (core/io/parser.py): records (dicts) to rows and columns and back, under a
    schema the parser stores. */
module Parser {
  import opened Wrappers
  import opened Dicts
  import opened Values
  import opened Types
  import opened Foreign
  import opened XmlTree
  import Schema
  import Cast
  import Normalize

  /** `self.schema.fields.keys()`: only a `StructType` has `fields`; for any other schema, or
      none, the attribute lookup raises. */
  function FieldNames(schema: Option<DataType>): (ks: Option<seq<string>>)
    ensures ks.Some? <==> schema.Some? && schema.value.StructType?
    ensures ks.Some? ==> ks.value == Keys(schema.value.fields)
  {
    if schema.Some? && schema.value.StructType? then Some(Keys(schema.value.fields)) else None
  }

  /** `record.get(field, None)`. */
  function Cell(record: Value, field: string): Value
  {
    if record.PyDict? then GetOr(record.entries, field, PyNone) else PyNone
  }

  /** `[record.get(field, None) for field in fields]`. */
  function RowOf(ks: seq<string>, record: Value): (row: seq<Value>)
    ensures |row| == |ks| && forall j :: 0 <= j < |ks| ==> row[j] == Cell(record, ks[j])
  {
    seq(|ks|, j requires 0 <= j < |ks| => Cell(record, ks[j]))
  }

  /** Each record cut down to the schema's fields, in field order, None for a missing field. */
  function Projected(ks: seq<string>, data: seq<Value>): (recs: seq<Value>)
    ensures |recs| == |data|
    ensures forall i :: 0 <= i < |data| ==>
              recs[i].PyDict? && |recs[i].entries| == |ks| && Keys(recs[i].entries) == ks
    ensures forall i, j :: 0 <= i < |data| && 0 <= j < |ks| ==> recs[i].entries[j].1 == Cell(data[i], ks[j])
  {
    seq(|data|, i requires 0 <= i < |data| =>
      PyDict(seq(|ks|, j requires 0 <= j < |ks| => (ks[j], Cell(data[i], ks[j])))))
  }

  // ---------------------------------------------------------------------------------------
  // infer_schema

  /** `GenericParser.infer_schema(data)`: the inferred schema when it is a struct, which
      happens exactly for a dict; a list of records infers a list type and is rejected. Every
      failure is a ConversionError. */
  function StructSchema(lib: Lib, data: Value): (r: Result<DataType>)
    ensures r.Ok? <==> data.PyDict? && Schema.InferSchema(lib, data).Ok?
    ensures r.Ok? ==> r.value == Schema.InferSchema(lib, data).value && r.value.StructType? &&
                      Distinct(Keys(r.value.fields))
    ensures r.Err? ==> r.error == ConversionError
  {
    OnlyDictsInferStructs(lib, data);
    match Schema.InferSchema(lib, data)
    case Err(_) => Err(ConversionError)
    case Ok(t) => if t.StructType? then Ok(t) else Err(ConversionError)
  }

  /** Only a dict infers a struct, and its fields are the dict's distinct keys. */
  lemma OnlyDictsInferStructs(lib: Lib, data: Value)
    ensures Schema.InferSchema(lib, data).Ok? && Schema.InferSchema(lib, data).value.StructType? ==>
              data.PyDict? && Distinct(Keys(Schema.InferSchema(lib, data).value.fields))
  {
    var r := Schema.InferSchema(lib, data);
    if r.Ok? && r.value.StructType? {
      match data
      case PyDict(entries) =>
        if entries != [] {
          var ts := Sequence(Schema.SchemaEntries(lib, data)).value;
          PutAllDistinct([], Zip(Keys(entries), ts));
        }
      case PyList(items) =>
      case _ =>
    }
  }

  /** A list of records is never a struct schema. */
  lemma RecordListRejected(lib: Lib, data: Value)
    requires data.PyList?
    ensures StructSchema(lib, data) == Err(ConversionError)
  {
  }

  // ---------------------------------------------------------------------------------------
  // to_rows, to_columns

  /** `to_rows(data)`: one row per record, one cell per schema field. The fields are looked up
      inside the loop, so an empty input gives no rows whatever the schema; a record that is
      not a dict fails at `record.get` unless there are no fields to get. */
  function RowsOf(schema: Option<DataType>, data: seq<Value>): (r: Result<seq<seq<Value>>>)
    ensures r.Ok? <==> data == [] || (FieldNames(schema).Some? && (FieldNames(schema).value == [] || AllDicts(data)))
    ensures r.Err? ==> r.error == ConversionError
    ensures r.Ok? ==> |r.value| == |data|
    ensures r.Ok? && data != [] ==> var ks := FieldNames(schema).value;
              forall i :: 0 <= i < |data| ==>
                (|r.value[i]| == |ks| &&
                 forall j :: 0 <= j < |ks| ==> r.value[i][j] == GetOr(data[i].entries, ks[j], PyNone))
  {
    if data == [] then Ok([])
    else
      match FieldNames(schema)
      case None => Err(ConversionError)
      case Some(ks) =>
        if ks != [] && !AllDicts(data) then Err(ConversionError)
        else Ok(seq(|data|, i requires 0 <= i < |data| => RowOf(ks, data[i])))
  }

  /** The column dict after `n` records: each field maps to the list of its first `n` cells. */
  function ColumnsUpTo(ks: seq<string>, data: seq<Value>, n: nat): (cols: Dict<string, Value>)
    requires n <= |data|
    ensures Keys(cols) == ks
  {
    seq(|ks|, j requires 0 <= j < |ks| => (ks[j], PyList(seq(n, i requires 0 <= i < n => Cell(data[i], ks[j])))))
  }

  /** `to_columns(data)`: every field of the schema maps to its column, one cell per record.
      The fields are read before the loop, so without a struct schema even an empty input
      fails. */
  function ColumnsOf(schema: Option<DataType>, data: seq<Value>): (r: Result<Dict<string, Value>>)
    ensures r.Ok? <==> FieldNames(schema).Some? && (FieldNames(schema).value == [] || AllDicts(data))
    ensures r.Err? ==> r.error == ConversionError
    ensures r.Ok? ==> Keys(r.value) == FieldNames(schema).value
    ensures r.Ok? ==> forall j :: 0 <= j < |r.value| ==>
              (r.value[j].1.PyList? && |r.value[j].1.items| == |data| &&
               forall i :: 0 <= i < |data| ==> r.value[j].1.items[i] == GetOr(data[i].entries, r.value[j].0, PyNone))
  {
    match FieldNames(schema)
    case None => Err(ConversionError)
    case Some(ks) =>
      if ks != [] && !AllDicts(data) then Err(ConversionError)
      else Ok(ColumnsUpTo(ks, data, |data|))
  }

  /** Rows and columns hold the same cells, transposed. */
  lemma RowsAreColumnsTransposed(schema: Option<DataType>, data: seq<Value>)
    requires RowsOf(schema, data).Ok? && ColumnsOf(schema, data).Ok?
    ensures var rows, cols := RowsOf(schema, data).value, ColumnsOf(schema, data).value;
            forall i, j :: 0 <= i < |rows| && 0 <= j < |cols| ==> rows[i][j] == cols[j].1.items[i]
  {
  }

  // ---------------------------------------------------------------------------------------
  // from_rows, from_columns

  /** The dict comprehension of `from_rows` for one row: fields and cells paired by position up
      to the shorter of the two, each cell cast to its field's type. */
  function CastRow(lib: Lib, fields: seq<(string, DataType)>, row: seq<Value>): (r: Result<Value>)
    ensures var n := if |fields| < |row| then |fields| else |row|;
            r.Ok? <==> forall j :: 0 <= j < n ==> Cast.CastValue(lib, row[j], fields[j].1).Ok?
    ensures var n := if |fields| < |row| then |fields| else |row|;
            r.Ok? ==> r.value.PyDict? && Keys(r.value.entries) == Keys(fields)[..n] &&
                      forall j :: 0 <= j < n ==> r.value.entries[j].1 == Cast.CastValue(lib, row[j], fields[j].1).value
  {
    var n := if |fields| < |row| then |fields| else |row|;
    match Sequence(CastCells(lib, fields, row, n))
    case Ok(vs) => Ok(PyDict(Zip(Keys(fields)[..n], vs)))
    case Err(e) => Err(e)
  }

  /** The casts of the first `n` cells of a row. */
  function CastCells(lib: Lib, fields: seq<(string, DataType)>, row: seq<Value>, n: nat): (rs: seq<Result<Value>>)
    requires n <= |fields| && n <= |row|
    ensures |rs| == n && forall j :: 0 <= j < n ==> rs[j] == Cast.CastValue(lib, row[j], fields[j].1)
  {
    seq(n, j requires 0 <= j < n => Cast.CastValue(lib, row[j], fields[j].1))
  }

  /** The records of `from_rows`, one per row. */
  function CastRows(lib: Lib, fields: seq<(string, DataType)>, rows: seq<seq<Value>>): (rs: seq<Result<Value>>)
    ensures |rs| == |rows| && forall i :: 0 <= i < |rows| ==> rs[i] == CastRow(lib, fields, rows[i])
  {
    seq(|rows|, i requires 0 <= i < |rows| => CastRow(lib, fields, rows[i]))
  }

  /** `from_rows(rows)`: one record per row; no rows give no records whatever the schema, and
      any failure (no struct schema, a failed cast) is a ConversionError. */
  function FromRowsOf(lib: Lib, schema: Option<DataType>, rows: seq<seq<Value>>): (r: Result<seq<Value>>)
    ensures r.Ok? <==> rows == [] || (FieldNames(schema).Some? &&
                                      forall i :: 0 <= i < |rows| ==> CastRow(lib, schema.value.fields, rows[i]).Ok?)
    ensures r.Ok? ==> (|r.value| == |rows| &&
                       forall i :: 0 <= i < |rows| ==> r.value[i] == CastRow(lib, schema.value.fields, rows[i]).value)
    ensures r.Err? ==> r.error == ConversionError
  {
    if rows == [] then Ok([])
    else if FieldNames(schema).None? then Err(ConversionError)
    else
      var fields := schema.value.fields;
      match Sequence(CastRows(lib, fields, rows))
      case Ok(recs) => Ok(recs)
      case Err(_) => Err(ConversionError)
  }

  /** Rows made by `to_rows` come back through `from_rows` as the records cut down to the
      schema's fields, provided every cell casts to itself under its field's type. */
  lemma RowsRoundTrip(lib: Lib, schema: Option<DataType>, data: seq<Value>)
    requires FieldNames(schema).Some? && AllDicts(data)
    requires forall i, j :: 0 <= i < |data| && 0 <= j < |schema.value.fields| ==>
               Cast.CastValue(lib, Cell(data[i], schema.value.fields[j].0), schema.value.fields[j].1) ==
               Ok(Cell(data[i], schema.value.fields[j].0))
    ensures RowsOf(schema, data).Ok?
    ensures FromRowsOf(lib, schema, RowsOf(schema, data).value) == Ok(Projected(FieldNames(schema).value, data))
  {
    var fields := schema.value.fields;
    var ks := Keys(fields);
    var rows := RowsOf(schema, data).value;
    var proj := Projected(ks, data);
    forall i | 0 <= i < |rows|
      ensures CastRow(lib, fields, rows[i]) == Ok(proj[i])
    {
      var vs := CastCells(lib, fields, rows[i], |fields|);
      forall j | 0 <= j < |fields|
        ensures vs[j] == Ok(rows[i][j])
      {
        assert rows[i][j] == Cell(data[i], fields[j].0);
      }
      assert Sequence(vs).value == rows[i];
      assert Keys(fields)[..|fields|] == ks;
      assert Zip(ks, rows[i]) == proj[i].entries;
    }
    if data != [] {
      var rs := CastRows(lib, fields, rows);
      assert Sequence(rs).value == proj;
    }
  }

  /** `len(column)`: the number of items of a list, characters of a str or entries of a dict;
      any other value raises TypeError. */
  function ColumnLen(v: Value): Option<nat>
  {
    match v
    case PyList(items) => Some(|items|)
    case PyStr(s) => Some(|s|)
    case PyDict(entries) => Some(|entries|)
    case _ => None
  }

  /** `column[i]` succeeds: a list or str with more than `i` items. A dict is looked up by its
      string keys, so the integer `i` raises KeyError; anything else raises TypeError. */
  predicate HasCell(v: Value, i: nat)
  {
    (v.PyList? && i < |v.items|) || (v.PyStr? && i < |v.s|)
  }

  /** `column[i]`: the `i`-th item of a list, or the one-character str at `i` of a str. */
  function ColumnCell(v: Value, i: nat): (c: Value)
    requires HasCell(v, i)
    ensures v.PyList? ==> c == v.items[i]
    ensures v.PyStr? ==> c == PyStr([v.s[i]])
  {
    if v.PyList? then v.items[i] else PyStr([v.s[i]])
  }

  /** Record `i` of `from_columns`: every column key mapped to that column's `i`-th cell. */
  function ColumnRecord(columns: Dict<string, Value>, i: nat): (d: Value)
    requires forall k :: 0 <= k < |columns| ==> HasCell(columns[k].1, i)
    ensures d.PyDict? && Keys(d.entries) == Keys(columns)
    ensures forall k :: 0 <= k < |columns| ==> d.entries[k].1 == ColumnCell(columns[k].1, i)
  {
    PyDict(seq(|columns|, k requires 0 <= k < |columns| => (columns[k].0, ColumnCell(columns[k].1, i))))
  }

  /** `from_columns(columns)`: the row count is `len` of the first column; record `i` maps
      every column key to that column's `i`-th cell. An empty column dict, a first column
      without a length, or a column that cannot be indexed up to the count is a ConversionError. */
  function FromColumns(columns: Dict<string, Value>): (r: Result<seq<Value>>)
    requires Distinct(Keys(columns))
    ensures r.Ok? <==> (columns != [] && ColumnLen(columns[0].1).Some? &&
                        (ColumnLen(columns[0].1).value == 0 ||
                         forall k :: 0 <= k < |columns| ==>
                           HasCell(columns[k].1, ColumnLen(columns[0].1).value - 1)))
    ensures r.Ok? ==> |r.value| == ColumnLen(columns[0].1).value
    ensures r.Ok? ==> forall i :: 0 <= i < |r.value| ==>
              r.value[i].PyDict? && Keys(r.value[i].entries) == Keys(columns) &&
              forall k :: 0 <= k < |columns| ==>
                HasCell(columns[k].1, i) && r.value[i].entries[k].1 == ColumnCell(columns[k].1, i)
    ensures r.Err? ==> r.error == ConversionError
  {
    if columns == [] || ColumnLen(columns[0].1).None? then Err(ConversionError)
    else
      var n := ColumnLen(columns[0].1).value;
      if n == 0 then Ok([])
      else if exists k :: 0 <= k < |columns| && !HasCell(columns[k].1, n - 1) then
        Err(ConversionError)
      else
        Ok(seq(n, i requires 0 <= i < n => ColumnRecord(columns, i)))
  }

  /** A str column is read character by character: `{"a": "xy"}` gives `[{"a": "x"}, {"a": "y"}]`,
      and an empty first column of any sized kind gives no records. */
  lemma FromColumnsExamples()
    ensures FromColumns([("a", PyStr("xy"))]) == Ok([PyDict([("a", PyStr("x"))]), PyDict([("a", PyStr("y"))])])
    ensures FromColumns([("a", PyStr(""))]) == Ok([])
    ensures FromColumns([("a", PyDict([]))]) == Ok([])
    ensures FromColumns([("a", PyDict([("b", PyNone)]))]) == Err(ConversionError)
    ensures FromColumns([("a", PyInt(3))]) == Err(ConversionError)
  {
    var cols := [("a", PyStr("xy"))];
    assert HasCell(cols[0].1, 1);
    var r := FromColumns(cols);
    assert |r.value| == 2;
    forall i | 0 <= i < 2
      ensures r.value[i] == PyDict([("a", PyStr([cols[0].1.s[i]]))])
    {
      assert Keys(r.value[i].entries) == ["a"];
      assert |r.value[i].entries| == 1;
    }
    assert [cols[0].1.s[0]] == "x" && [cols[0].1.s[1]] == "y";
    assert r.value == [PyDict([("a", PyStr("x"))]), PyDict([("a", PyStr("y"))])];
    assert !HasCell(PyDict([("b", PyNone)]), 0);
  }

  /** Columns made by `to_columns` come back through `from_columns` as the records cut down to
      the schema's fields, when the schema has at least one field. */
  lemma ColumnsRoundTrip(schema: Option<DataType>, data: seq<Value>)
    requires FieldNames(schema).Some? && FieldNames(schema).value != [] && Distinct(FieldNames(schema).value)
    requires AllDicts(data)
    ensures ColumnsOf(schema, data).Ok?
    ensures FromColumns(ColumnsOf(schema, data).value) == Ok(Projected(FieldNames(schema).value, data))
  {
    var ks := FieldNames(schema).value;
    var cols := ColumnsOf(schema, data).value;
    var r := FromColumns(cols);
    var proj := Projected(ks, data);
    assert cols[0].1.items == seq(|data|, i requires 0 <= i < |data| => Cell(data[i], ks[0]));
    if data != [] {
      forall k | 0 <= k < |cols|
        ensures HasCell(cols[k].1, |data| - 1)
      {
      }
      assert r.Ok?;
      forall i | 0 <= i < |data|
        ensures r.value[i] == proj[i]
      {
        forall k | 0 <= k < |ks|
          ensures r.value[i].entries[k] == proj[i].entries[k]
        {
          assert cols[k].0 == ks[k] && cols[k].1.items[i] == Cell(data[i], ks[k]);
        }
      }
      assert |r.value| == |proj|;
      assert r.value == proj;
    } else {
      assert proj == [];
    }
  }

  // ---------------------------------------------------------------------------------------
  // parse_xml

  /** `subchild.text`. */
  function TextValue(text: Option<string>): Value
  {
    if text.Some? then PyStr(text.value) else PyNone
  }

  /** `{subchild.tag: subchild.text for subchild in child}`. */
  function RecordOf(child: Element): (v: Value)
    ensures v.PyDict?
  {
    PyDict(FromPairs(SubPairs(child)))
  }

  /** The (tag, text) pairs of the sub-elements, in document order. */
  function SubPairs(child: Element): (pairs: seq<(string, Value)>)
    ensures |pairs| == |child.children|
    ensures forall k :: 0 <= k < |pairs| ==> pairs[k] == (child.children[k].tag, TextValue(child.children[k].text))
  {
    seq(|child.children|, k requires 0 <= k < |child.children| =>
      (child.children[k].tag, TextValue(child.children[k].text)))
  }

  /** `parse_xml(xml_data)`: one record per child of the root; text that does not parse is a
      ConversionError. */
  function XmlRecords(lib: Lib, xml: string): (r: Result<seq<Value>>)
    ensures r.Ok? <==> lib.parseXml(xml).Some?
    ensures r.Ok? ==> |r.value| == |lib.parseXml(xml).value.children|
    ensures r.Ok? ==> forall i :: 0 <= i < |r.value| ==> r.value[i] == RecordOf(lib.parseXml(xml).value.children[i])
    ensures r.Err? ==> r.error == ConversionError
  {
    match lib.parseXml(xml)
    case None => Err(ConversionError)
    case Some(root) =>
      Ok(seq(|root.children|, i requires 0 <= i < |root.children| => RecordOf(root.children[i])))
  }

  /** Some sub-element carries the tag. */
  predicate HasTag(subs: seq<Element>, tag: string)
  {
    exists k :: 0 <= k < |subs| && subs[k].tag == tag
  }

  /** Each tag appears once in a record. */
  lemma RecordKeysDistinct(child: Element)
    ensures Distinct(Keys(RecordOf(child).entries))
  {
    assert Distinct(Keys<string, Value>([]));
    PutAllDistinct([], SubPairs(child));
  }

  /** In a record a tag maps to the text of its LAST sub-element with that tag, and a tag with
      no sub-element is absent. */
  lemma RecordLastWins(child: Element, tag: string)
    ensures Get(RecordOf(child).entries, tag) ==
              if HasTag(child.children, tag)
              then Some(TextValue(child.children[LastTagIndex(child.children, tag)].text))
              else None
  {
    var subs := child.children;
    var pairs := SubPairs(child);
    GetPutAll([], pairs, tag);
    if HasTag(subs, tag) {
      var k :| 0 <= k < |subs| && subs[k].tag == tag;
      assert pairs[k].0 == tag;
      var a, b := LastIndexOf(pairs, tag), LastTagIndex(subs, tag);
      assert pairs[b].0 == tag && subs[a].tag == tag;
      assert a == b;
    }
  }

  /** The position of the last element with the given tag. */
  function LastTagIndex(subs: seq<Element>, tag: string): (i: nat)
    requires HasTag(subs, tag)
    ensures i < |subs| && subs[i].tag == tag
    ensures forall j :: i < j < |subs| ==> subs[j].tag != tag
  {
    if subs[|subs| - 1].tag == tag then |subs| - 1
    else
      var k :| 0 <= k < |subs| && subs[k].tag == tag;
      assert subs[..|subs| - 1][k].tag == tag;
      LastTagIndex(subs[..|subs| - 1], tag)
  }

  // ---------------------------------------------------------------------------------------
  // The parser object

  class GenericParser {
    var schema: Option<DataType>

    /** A stored struct schema has distinct field names, as the dict it stands for does. */
    ghost predicate Valid()
      reads this
    {
      schema.Some? && schema.value.StructType? ==> Distinct(Keys(schema.value.fields))
    }

    constructor (schema: Option<DataType>)
      requires schema.Some? && schema.value.StructType? ==> Distinct(Keys(schema.value.fields))
      ensures this.schema == schema && Valid()
    {
      this.schema := schema;
    }

    /** `infer_schema(data)`: stores the struct schema on success; on failure the stored
        schema is untouched. */
    method InferSchema(lib: Lib, data: Value) returns (r: Result<DataType>)
      modifies this
      ensures r == StructSchema(lib, data)
      ensures schema == if r.Ok? then Some(r.value) else old(schema)
      ensures old(Valid()) ==> Valid()
    {
      r := StructSchema(lib, data);
      if r.Ok? {
        schema := Some(r.value);
      }
    }

    /** `to_rows(data)`. */
    method ToRows(data: seq<Value>) returns (r: Result<seq<seq<Value>>>)
      ensures r == RowsOf(schema, data)
    {
      var rows: seq<seq<Value>> := [];
      var i := 0;
      ghost var names := FieldNames(schema);
      while i < |data|
        invariant 0 <= i <= |data|
        invariant i > 0 ==> names.Some?
        invariant i > 0 ==> names.value == [] || AllDicts(data[..i])
        invariant |rows| == i
        invariant forall m :: 0 <= m < i ==> rows[m] == RowOf(names.value, data[m])
      {
        var fieldNames := FieldNames(schema);
        if fieldNames.None? {
          return Err(ConversionError);
        }
        var ks := fieldNames.value;
        var record := data[i];
        if ks != [] && !record.PyDict? {
          return Err(ConversionError);
        }
        var row := RowOf(ks, record);
        rows := rows + [row];
        assert data[..i + 1] == data[..i] + [record];
        i := i + 1;
      }
      assert data[..|data|] == data;
      if data != [] {
        assert rows == seq(|data|, m requires 0 <= m < |data| => RowOf(names.value, data[m]));
      }
      r := Ok(rows);
    }

    /** `from_rows(rows)`. */
    method FromRows(lib: Lib, rows: seq<seq<Value>>) returns (r: Result<seq<Value>>)
      ensures r == FromRowsOf(lib, schema, rows)
    {
      var structured: seq<Value> := [];
      var i := 0;
      while i < |rows|
        invariant 0 <= i <= |rows|
        invariant i > 0 ==> FieldNames(schema).Some?
        invariant |structured| == i
        invariant forall m :: 0 <= m < i ==> CastRow(lib, schema.value.fields, rows[m]) == Ok(structured[m])
      {
        if FieldNames(schema).None? {
          return Err(ConversionError);
        }
        var record := CastRow(lib, schema.value.fields, rows[i]);
        if record.Err? {
          assert CastRows(lib, schema.value.fields, rows)[i].Err?;
          return Err(ConversionError);
        }
        structured := structured + [record.value];
        i := i + 1;
      }
      if rows != [] {
        assert Sequence(CastRows(lib, schema.value.fields, rows)).value == structured;
      }
      r := Ok(structured);
    }

    /** `parse_json(json_data)`: the decoded value; text that does not decode raises
        ConversionError. */
    function ParseJson(lib: Lib, json: string): (r: Result<Value>)
      ensures r.Ok? <==> lib.loadJson(json).Some?
      ensures r.Ok? ==> r.value == lib.loadJson(json).value
      ensures r.Err? ==> r.error == ConversionError
    {
      match lib.loadJson(json)
      case Some(v) => Ok(v)
      case None => Err(ConversionError)
    }

    /** `parse_xml(xml_data)`: one record per child of the root, appended in order. */
    method ParseXml(lib: Lib, xml: string) returns (r: Result<seq<Value>>)
      ensures r == XmlRecords(lib, xml)
    {
      var parsed := lib.parseXml(xml);
      if parsed.None? {
        return Err(ConversionError);
      }
      var root := parsed.value;
      var records: seq<Value> := [];
      for i := 0 to |root.children|
        invariant |records| == i
        invariant forall m :: 0 <= m < i ==> records[m] == RecordOf(root.children[m])
      {
        records := records + [RecordOf(root.children[i])];
      }
      assert records == seq(|root.children|, i requires 0 <= i < |root.children| => RecordOf(root.children[i]));
      r := Ok(records);
    }

    /** `to_columns(data)`. */
    method ToColumns(data: seq<Value>) returns (r: Result<Dict<string, Value>>)
      requires Valid()
      ensures r == ColumnsOf(schema, data)
    {
      var names := FieldNames(schema);
      if names.None? {
        return Err(ConversionError);
      }
      var ks := names.value;
      var columns := seq(|ks|, j requires 0 <= j < |ks| => (ks[j], PyList([])));
      forall j | 0 <= j < |ks|
        ensures columns[j] == ColumnsUpTo(ks, data, 0)[j]
      {
        assert ColumnsUpTo(ks, data, 0)[j].1.items == [];
      }
      var n := 0;
      while n < |data|
        invariant 0 <= n <= |data|
        invariant ks == [] || AllDicts(data[..n])
        invariant columns == ColumnsUpTo(ks, data, n)
      {
        var ok;
        ok, columns := AppendRecord(ks, data, n, columns);
        if !ok {
          return Err(ConversionError);
        }
        assert data[..n + 1] == data[..n] + [data[n]];
        n := n + 1;
      }
      assert data[..|data|] == data;
      r := Ok(columns);
    }
  }

  /** The column dict part-way through record `n`: the first `j` fields already hold `n + 1`
      cells, the others `n`. */
  function PartlyAppended(ks: seq<string>, data: seq<Value>, n: nat, j: nat): (cols: Dict<string, Value>)
    requires n < |data| && j <= |ks|
    ensures Keys(cols) == ks
  {
    seq(|ks|, m requires 0 <= m < |ks| =>
      (ks[m], PyList(seq(if m < j then n + 1 else n, i requires 0 <= i < (if m < j then n + 1 else n) => Cell(data[i], ks[m])))))
  }

  /** The inner loop of `to_columns` for record `n`: `columns[field].append(record.get(field))`
      for each field in turn; a record that is not a dict fails at its first field. */
  method AppendRecord(ks: seq<string>, data: seq<Value>, n: nat, columns0: Dict<string, Value>)
    returns (ok: bool, columns: Dict<string, Value>)
    requires n < |data| && Distinct(ks)
    requires columns0 == ColumnsUpTo(ks, data, n)
    ensures ok <==> ks == [] || data[n].PyDict?
    ensures ok ==> columns == ColumnsUpTo(ks, data, n + 1)
  {
    columns := columns0;
    assert columns == PartlyAppended(ks, data, n, 0);
    var record := data[n];
    var j := 0;
    while j < |ks|
      invariant 0 <= j <= |ks|
      invariant j > 0 ==> record.PyDict?
      invariant columns == PartlyAppended(ks, data, n, j)
    {
      if !record.PyDict? {
        return false, columns;
      }
      var field := ks[j];
      GetDistinct(columns, j);
      var column := Get(columns, field).value;
      columns := Put(columns, field, PyList(column.items + [GetOr(record.entries, field, PyNone)]));
      AppendStep(ks, data, n, j);
      j := j + 1;
    }
    ok := true;
    assert PartlyAppended(ks, data, n, |ks|) == ColumnsUpTo(ks, data, n + 1);
  }

  lemma AppendStep(ks: seq<string>, data: seq<Value>, n: nat, j: nat)
    requires n < |data| && j < |ks| && Distinct(ks)
    ensures var cols := PartlyAppended(ks, data, n, j);
            Put(cols, ks[j], PyList(cols[j].1.items + [Cell(data[n], ks[j])])) == PartlyAppended(ks, data, n, j + 1)
  {
    var cols := PartlyAppended(ks, data, n, j);
    var col := seq(n + 1, i requires 0 <= i < n + 1 => Cell(data[i], ks[j]));
    ColumnGrows(ks, data, n, j);
    assert cols[j].0 == ks[j];
    PutAt(cols, j, PyList(col));
    NextColumn(ks, data, n, j);
  }

  /** Appending record `n`'s cell to column `j` gives the column over the first `n + 1` records. */
  lemma ColumnGrows(ks: seq<string>, data: seq<Value>, n: nat, j: nat)
    requires n < |data| && j < |ks|
    ensures PartlyAppended(ks, data, n, j)[j].1.items + [Cell(data[n], ks[j])] ==
            seq(n + 1, i requires 0 <= i < n + 1 => Cell(data[i], ks[j]))
  {
  }

  /** Replacing column `j` by its longer version moves on to the next field. */
  lemma NextColumn(ks: seq<string>, data: seq<Value>, n: nat, j: nat)
    requires n < |data| && j < |ks|
    ensures PartlyAppended(ks, data, n, j)[j := (ks[j], PyList(seq(n + 1, i requires 0 <= i < n + 1 => Cell(data[i], ks[j]))))] ==
            PartlyAppended(ks, data, n, j + 1)
  {
  }

  /** `parse_json` accepts exactly the text `Normalization.normalize_json` decodes, with the
      same value; only the error differs. */
  lemma ParseJsonAgreesWithNormalize(p: GenericParser, lib: Lib, json: string)
    ensures p.ParseJson(lib, json).Ok? <==> Normalize.NormalizeJson(lib, PyStr(json)).Ok?
    ensures p.ParseJson(lib, json).Ok? ==> Normalize.NormalizeJson(lib, PyStr(json)) == p.ParseJson(lib, json)
    ensures p.ParseJson(lib, json).Err? ==> Normalize.NormalizeJson(lib, PyStr(json)) == Err(NormalizationError)
  {
  }
}
