/** `XMLAdapter` of core/Adapters/XML.py: records written under a fixed `root` element directed
    by their inferred schema, a list becoming repeated sibling elements, and an element tree
    read back through `parse_element` of the root itself. Elements are values
    (`XmlTree.Element`); the text form is left to `Lib.parseXml`. */
module AdapterXml {
  import opened Wrappers
  import opened Dicts
  import opened Text
  import opened Values
  import opened Types
  import opened Foreign
  import opened XmlTree
  import NormalizerBase
  import ConversionMap
  import Schema

  /** The elements of several runs of siblings, run after run. */
  function Concat(runs: seq<seq<Element>>): (r: seq<Element>)
    ensures runs == [] ==> r == []
  {
    if runs == [] then [] else Concat(runs[..|runs| - 1]) + runs[|runs| - 1]
  }

  lemma ConcatSnoc(runs: seq<seq<Element>>, run: seq<Element>)
    ensures Concat(runs + [run]) == Concat(runs) + run
  {
    assert (runs + [run])[..|runs|] == runs;
  }

  /** Runs of one element each are those elements. */
  lemma {:induction false} ConcatSingles(runs: seq<seq<Element>>, es: seq<Element>)
    requires |runs| == |es| && forall i :: 0 <= i < |runs| ==> runs[i] == [es[i]]
    ensures Concat(runs) == es
  {
    if runs != [] {
      ConcatSingles(runs[..|runs| - 1], es[..|es| - 1]);
      assert es == es[..|es| - 1] + [es[|es| - 1]];
    }
  }

  // ---------------------------------------------------------------------------------------
  // build_element

  /** The elements `build_element(parent, key, value, schema)` appends to `parent`: first the
      child `key`; under a struct schema the child holds what its entries build (`value.items()`,
      so the value must be a dict); under a list schema each element of `value` (which must be
      iterable) is built again under `parent` with the element type, as further siblings named
      `key`; otherwise the child's text is `ConversionMap.to_xml(value, schema)`. Any failure
      is a ConversionError. */
  function Built(key: string, value: Value, schema: DataType): (r: Result<seq<Element>>)
    ensures r.Err? ==> r.error == ConversionError
    ensures r.Ok? ==> r.value != [] && r.value[0].tag == key && r.value[0].attrib == []
    ensures !schema.StructType? && !schema.ListType? ==>
              r == Ok([Element(key, Some(ConversionMap.ToXml(value, schema)), [], [])])
    decreases Nesting(value), schema, 2
  {
    if schema.StructType? then
      match BuiltFields(value, schema)
      case Ok(children) => Ok([Element(key, None, [], children)])
      case Err(e) => Err(e)
    else if schema.ListType? then
      match BuiltItems(key, value, schema)
      case Ok(siblings) => Ok([Element(key, None, [], [])] + siblings)
      case Err(e) => Err(e)
    else Ok([Element(key, Some(ConversionMap.ToXml(value, schema)), [], [])])
  }

  /** `schema.fields.get(key, NestedNullType())` for a struct schema; any other schema gives
      every key NestedNullType (the record loop of `to_xml`). */
  function FieldSchema(schema: DataType, key: string): DataType
  {
    if schema.StructType? then FieldOrNull(schema.fields, key) else NestedNullType
  }

  /** One `build_element` call per entry of a dict value, each with its field's schema. */
  function FieldResults(value: Value, schema: DataType): (rs: seq<Result<seq<Element>>>)
    requires value.PyDict?
    ensures |rs| == |value.entries| &&
            forall i :: 0 <= i < |value.entries| ==>
              rs[i] == Built(value.entries[i].0, value.entries[i].1, FieldSchema(schema, value.entries[i].0))
    decreases Nesting(value), schema, 0
  {
    seq(|value.entries|, i requires 0 <= i < |value.entries| =>
      Built(value.entries[i].0, value.entries[i].1, FieldSchema(schema, value.entries[i].0)))
  }

  /** What the loop over `value.items()` puts inside the child, entry after entry. */
  function BuiltFields(value: Value, schema: DataType): (r: Result<seq<Element>>)
    ensures r.Err? ==> r.error == ConversionError
    ensures r.Ok? <==> value.PyDict? && forall i :: 0 <= i < |value.entries| ==>
                         Built(value.entries[i].0, value.entries[i].1, FieldSchema(schema, value.entries[i].0)).Ok?
    ensures r.Ok? ==> r.value == Concat(Sequence(FieldResults(value, schema)).value)
    decreases Nesting(value), schema, 1
  {
    if !value.PyDict? then Err(ConversionError)
    else
      match Sequence(FieldResults(value, schema))
      case Ok(runs) => Ok(Concat(runs))
      case Err(_) => Err(ConversionError)
  }

  /** One `build_element(parent, key, item, schema.inner_type)` call per element of `value`. */
  function ItemResults(key: string, value: Value, schema: DataType): (rs: seq<Result<seq<Element>>>)
    requires schema.ListType? && Iterated(value).Some?
    ensures var xs := Iterated(value).value;
            |rs| == |xs| && forall i :: 0 <= i < |xs| ==> rs[i] == Built(key, xs[i], schema.innerType)
    decreases Nesting(value), schema, 0
  {
    var xs := Iterated(value).value;
    seq(|xs|, i requires 0 <= i < |xs| => Built(key, xs[i], schema.innerType))
  }

  /** The further siblings the loop over `value` appends to the parent, element after element. */
  function BuiltItems(key: string, value: Value, schema: DataType): (r: Result<seq<Element>>)
    requires schema.ListType?
    ensures r.Err? ==> r.error == ConversionError
    ensures r.Ok? <==> Iterated(value).Some? &&
                       var xs := Iterated(value).value;
                       forall i :: 0 <= i < |xs| ==> Built(key, xs[i], schema.innerType).Ok?
    ensures r.Ok? ==> r.value == Concat(Sequence(ItemResults(key, value, schema)).value)
    decreases Nesting(value), schema, 1
  {
    match Iterated(value)
    case None => Err(ConversionError)
    case Some(_) =>
      match Sequence(ItemResults(key, value, schema))
      case Ok(runs) => Ok(Concat(runs))
      case Err(_) => Err(ConversionError)
  }

  /** `build_element`, returning what it appends to the parent. */
  method BuildElement(key: string, value: Value, schema: DataType) returns (r: Result<seq<Element>>)
    ensures r == Built(key, value, schema)
    decreases Nesting(value), schema, 2
  {
    if schema.StructType? {
      var children := BuildFields(value, schema);
      if children.Err? {
        return Err(ConversionError);
      }
      return Ok([Element(key, None, [], children.value)]);
    } else if schema.ListType? {
      var siblings := BuildItems(key, value, schema);
      if siblings.Err? {
        return Err(ConversionError);
      }
      return Ok([Element(key, None, [], [])] + siblings.value);
    } else {
      return Ok([Element(key, Some(ConversionMap.ToXml(value, schema)), [], [])]);
    }
  }

  /** The loop `for sub_key, sub_value in value.items()`. */
  method BuildFields(value: Value, schema: DataType) returns (r: Result<seq<Element>>)
    ensures r == BuiltFields(value, schema)
    decreases Nesting(value), schema, 1
  {
    if !value.PyDict? {
      return Err(ConversionError);
    }
    var es := value.entries;
    ghost var rs := FieldResults(value, schema);
    ghost var runs: seq<seq<Element>> := [];
    var children: seq<Element> := [];
    var i := 0;
    while i < |es|
      invariant 0 <= i <= |es|
      invariant Sequence(rs[..i]) == Ok(runs) && children == Concat(runs)
    {
      var built := BuildElement(es[i].0, es[i].1, FieldSchema(schema, es[i].0));
      if built.Err? {
        SequenceStops(rs, i);
        return Err(ConversionError);
      }
      SequenceStep(rs, i, runs);
      ConcatSnoc(runs, built.value);
      runs := runs + [built.value];
      children := children + built.value;
      i := i + 1;
    }
    assert rs[..|es|] == rs;
    return Ok(children);
  }

  /** The loop `for item in value`, each item built as further siblings. */
  method BuildItems(key: string, value: Value, schema: DataType) returns (r: Result<seq<Element>>)
    requires schema.ListType?
    ensures r == BuiltItems(key, value, schema)
    decreases Nesting(value), schema, 1
  {
    var elements := Iterated(value);
    if elements.None? {
      return Err(ConversionError);
    }
    var xs := elements.value;
    ghost var rs := ItemResults(key, value, schema);
    ghost var runs: seq<seq<Element>> := [];
    var siblings: seq<Element> := [];
    var i := 0;
    while i < |xs|
      invariant 0 <= i <= |xs|
      invariant Sequence(rs[..i]) == Ok(runs)
      invariant siblings == Concat(runs)
    {
      var built := BuildElement(key, xs[i], schema.innerType);
      if built.Err? {
        SequenceStops(rs, i);
        return Err(ConversionError);
      }
      SequenceStep(rs, i, runs);
      ConcatSnoc(runs, built.value);
      runs := runs + [built.value];
      siblings := siblings + built.value;
      i := i + 1;
    }
    assert rs[..|xs|] == rs;
    return Ok(siblings);
  }

  // ---------------------------------------------------------------------------------------
  // to_xml

  /** The record schema of the loop over records: the list's element type when it is a
      struct, NestedNullType otherwise (every field then being NestedNullType). */
  function ItemSchema(schema: DataType): DataType
    requires schema.ListType?
  {
    if schema.innerType.StructType? then schema.innerType else NestedNullType
  }

  /** One pass of `for key, value in item.items()` per record of the normalised data. */
  function RecordResults(normalized: Value, schema: DataType): (rs: seq<Result<seq<Element>>>)
    requires schema.ListType? && Iterated(normalized).Some?
    ensures var xs := Iterated(normalized).value;
            |rs| == |xs| && forall i :: 0 <= i < |xs| ==> rs[i] == BuiltFields(xs[i], ItemSchema(schema))
  {
    var xs := Iterated(normalized).value;
    seq(|xs|, i requires 0 <= i < |xs| => BuiltFields(xs[i], ItemSchema(schema)))
  }

  /** The children of `root` under a list schema (record after record, field after field),
      under a struct schema (the entries of the data), or a ConversionError for any other
      schema. */
  function RootChildren(normalized: Value, schema: DataType): (r: Result<seq<Element>>)
    ensures r.Err? ==> r.error == ConversionError
    ensures !schema.ListType? && !schema.StructType? ==> r.Err?
    ensures schema.ListType? ==>
              (r.Ok? <==> Iterated(normalized).Some? &&
                          var xs := Iterated(normalized).value;
                          forall i :: 0 <= i < |xs| ==> BuiltFields(xs[i], ItemSchema(schema)).Ok?)
    ensures schema.ListType? && r.Ok? ==> r.value == Concat(Sequence(RecordResults(normalized, schema)).value)
    ensures schema.StructType? ==> r == BuiltFields(normalized, schema)
  {
    if schema.ListType? then
      match Iterated(normalized)
      case None => Err(ConversionError)
      case Some(_) =>
        match Sequence(RecordResults(normalized, schema))
        case Ok(runs) => Ok(Concat(runs))
        case Err(_) => Err(ConversionError)
    else if schema.StructType? then BuiltFields(normalized, schema)
    else Err(ConversionError)
  }

  /** Whatever `normalize_input` returns is a list, so its schema is a list type: the struct
      branch of `to_xml` is never taken. */
  lemma NormalizedSchemaIsList(lib: Lib, data: Value)
    requires NormalizerBase.NormalizeInput(data).Ok?
    requires Schema.InferSchema(lib, NormalizerBase.NormalizeInput(data).value).Ok?
    ensures Schema.InferSchema(lib, NormalizerBase.NormalizeInput(data).value).value.ListType?
  {
  }

  /** The element tree `to_xml` serialises: a `root` element whose children are the fields of
      every record, in order, each built by `build_element` under the record schema. Every
      failure is a ConversionError. */
  function ToXmlTree(lib: Lib, data: Value): (r: Result<Element>)
    ensures r.Err? ==> r.error == ConversionError
    ensures NormalizerBase.NormalizeInput(data).Err? ==> r.Err?
    ensures r.Ok? ==> var normalized := NormalizerBase.NormalizeInput(data).value;
                      Schema.InferSchema(lib, normalized).Ok? &&
                      var schema := Schema.InferSchema(lib, normalized).value;
                      schema.ListType? &&
                      r.value.tag == "root" && r.value.text.None? && r.value.attrib == [] &&
                      RootChildren(normalized, schema) == Ok(r.value.children)
    ensures forall normalized, schema, children ::
              NormalizerBase.NormalizeInput(data) == Ok(normalized) &&
              Schema.InferSchema(lib, normalized) == Ok(schema) &&
              RootChildren(normalized, schema) == Ok(children) ==>
              r == Ok(Element("root", None, [], children))
  {
    match NormalizerBase.NormalizeInput(data)
    case Err(_) => Err(ConversionError)
    case Ok(normalized) =>
      match Schema.InferSchema(lib, normalized)
      case Err(_) => Err(ConversionError)
      case Ok(schema) =>
        NormalizedSchemaIsList(lib, data);
        match RootChildren(normalized, schema)
        case Ok(children) => Ok(Element("root", None, [], children))
        case Err(_) => Err(ConversionError)
  }

  /** The loop over the records of `to_xml`, each record's fields built under `root`. */
  method BuildRecords(normalized: Value, schema: DataType) returns (r: Result<seq<Element>>)
    requires schema.ListType?
    ensures r == RootChildren(normalized, schema)
  {
    var records := Iterated(normalized);
    if records.None? {
      return Err(ConversionError);
    }
    var xs := records.value;
    ghost var rs := RecordResults(normalized, schema);
    ghost var runs: seq<seq<Element>> := [];
    var children: seq<Element> := [];
    var i := 0;
    while i < |xs|
      invariant 0 <= i <= |xs|
      invariant Sequence(rs[..i]) == Ok(runs)
      invariant children == Concat(runs)
    {
      var fields := BuildFields(xs[i], ItemSchema(schema));
      assert rs[i] == fields;
      if fields.Err? {
        SequenceStops(rs, i);
        assert Sequence(rs).Err?;
        return Err(ConversionError);
      }
      SequenceStep(rs, i, runs);
      ConcatSnoc(runs, fields.value);
      runs := runs + [fields.value];
      children := children + fields.value;
      i := i + 1;
    }
    assert rs[..|xs|] == rs;
    assert Sequence(rs) == Ok(runs);
    return Ok(children);
  }

  /** `to_xml` up to `ET.tostring`: normalise, infer, then fill `root` record by record. The
      struct branch is left out since the schema of normalised data is always a list type. */
  method ToXml(lib: Lib, data: Value) returns (r: Result<Element>)
    ensures r == ToXmlTree(lib, data)
  {
    var normalizedResult := NormalizerBase.NormalizeInput(data);
    if normalizedResult.Err? {
      return Err(ConversionError);
    }
    var normalized := normalizedResult.value;
    var schemaResult := Schema.InferSchema(lib, normalized);
    if schemaResult.Err? {
      return Err(ConversionError);
    }
    NormalizedSchemaIsList(lib, data);
    var children := BuildRecords(normalized, schemaResult.value);
    if children.Err? {
      return Err(ConversionError);
    }
    return Ok(Element("root", None, [], children.value));
  }

  // ---------------------------------------------------------------------------------------
  // from_xml, infer_schema, describe_schema

  /** `from_xml` after `ET.fromstring`: `parse_element(root)` passed through `normalize_input`
      and inferred. A root without children parses to its text or None, which
      `normalize_input` refuses; any other root parses to a dict, read back as one record. */
  function FromTree(lib: Lib, root: Element): (r: Result<(Value, DataType)>)
    ensures r.Err? ==> r.error == ConversionError
    ensures root.children == [] ==> r.Err?
    ensures root.children != [] ==>
              var data := PyList([Parsed(root)]);
              (r.Ok? <==> Schema.InferSchema(lib, data).Ok?) &&
              (r.Ok? ==> r.value == (data, Schema.InferSchema(lib, data).value))
  {
    match NormalizerBase.NormalizeInput(Parsed(root))
    case Err(_) => Err(ConversionError)
    case Ok(normalized) =>
      match Schema.InferSchema(lib, normalized)
      case Err(_) => Err(ConversionError)
      case Ok(schema) => Ok((normalized, schema))
  }

  /** `from_xml(xml_data)`: text that does not parse (or is not text) is a ConversionError. */
  function FromXml(lib: Lib, xml: Value): (r: Result<(Value, DataType)>)
    ensures r.Ok? ==> xml.PyStr? && lib.parseXml(xml.s).Some? && r == FromTree(lib, lib.parseXml(xml.s).value)
    ensures xml.PyStr? && lib.parseXml(xml.s).Some? ==> r == FromTree(lib, lib.parseXml(xml.s).value)
    ensures r.Err? ==> r.error == ConversionError
  {
    if !xml.PyStr? then Err(ConversionError)
    else
      match lib.parseXml(xml.s)
      case None => Err(ConversionError)
      case Some(root) => FromTree(lib, root)
  }

  /** `infer_schema(xml_data)`: inferring again from what `from_xml` returned gives the schema
      `from_xml` returned with it. */
  function InferXmlSchema(lib: Lib, xml: Value): (r: Result<DataType>)
    ensures FromXml(lib, xml).Ok? ==> r == Ok(FromXml(lib, xml).value.1)
    ensures FromXml(lib, xml).Err? ==> r == Err(ConversionError)
  {
    match FromXml(lib, xml)
    case Err(_) => Err(ConversionError)
    case Ok((data, _)) => Schema.InferSchema(lib, data).Rewrap(ConversionError)
  }

  /** `describe_schema(xml_data)`: the description of the inferred schema. */
  function DescribeXmlSchema(lib: Lib, xml: Value): (r: Result<Value>)
    ensures r.Ok? <==> FromXml(lib, xml).Ok?
    ensures r.Ok? ==> r.value == Schema.DescribeSchema(FromXml(lib, xml).value.1)
    ensures r.Err? ==> r.error == ConversionError
  {
    match InferXmlSchema(lib, xml)
    case Err(_) => Err(ConversionError)
    case Ok(schema) => Ok(Schema.DescribeSchema(schema))
  }

  // ---------------------------------------------------------------------------------------
  // Properties

  /** The types a string infers to are all written as the string itself. */
  lemma TextWrittenAsIs(s: string, t: DataType)
    requires t in {IntegerType, DecimalType, DatetimeType, StringType}
    ensures ConversionMap.ToXml(PyStr(s), t) == s
  {
  }

  /** The fields of a flat record under its inferred schema are written as one leaf each,
      holding the string itself. */
  lemma FlatFieldsBuilt(lib: Lib, entries: seq<(string, Value)>)
    requires entries != [] && FlatRecord(entries)
    requires Schema.InferSchema(lib, PyDict(entries)).Ok?
    ensures BuiltFields(PyDict(entries), Schema.InferSchema(lib, PyDict(entries)).value) == Ok(Leaves(entries))
  {
    var rec := PyDict(entries);
    var recSchema := Schema.InferSchema(lib, rec).value;
    Schema.FlatRecordSchema(lib, entries);
    var rs := FieldResults(rec, recSchema);
    var runs := seq(|entries|, i requires 0 <= i < |entries| => [Leaves(entries)[i]]);
    forall i | 0 <= i < |entries|
      ensures rs[i] == Ok(runs[i])
    {
      var t := Schema.InferText(lib, entries[i].1.s).value;
      assert FieldSchema(recSchema, entries[i].0) == t;
      TextWrittenAsIs(entries[i].1.s, t);
      assert entries[i].1 == PyStr(entries[i].1.s);
      assert Built(entries[i].0, entries[i].1, t) == Ok([Leaves(entries)[i]]);
    }
    SequenceAllOk(rs, runs);
    ConcatSingles(runs, Leaves(entries));
  }

  /** `to_xml` of a flat record: a `root` element with one leaf per field, in order. */
  lemma RecordTree(lib: Lib, entries: seq<(string, Value)>)
    requires entries != [] && FlatRecord(entries)
    requires Schema.InferSchema(lib, PyDict(entries)).Ok?
    ensures ToXmlTree(lib, PyDict(entries)) == Ok(Element("root", None, [], Leaves(entries)))
  {
    var rec := PyDict(entries);
    var recSchema := Schema.InferSchema(lib, rec).value;
    var normalized := PyList([rec]);
    SequenceAllOk(Schema.SchemaItems(lib, normalized), [recSchema]);
    Schema.SchemaListRule(lib, normalized);
    Schema.UnifyCases([recSchema]);
    Schema.FlatRecordSchema(lib, entries);
    var schema := ListType(recSchema);
    assert Schema.InferSchema(lib, normalized) == Ok(schema);
    FlatFieldsBuilt(lib, entries);
    assert ItemSchema(schema) == recSchema;
    assert Iterated(normalized) == Some([rec]);
    assert RecordResults(normalized, schema)[0] == Ok(Leaves(entries));
    SequenceAllOk(RecordResults(normalized, schema), [Leaves(entries)]);
    ConcatSnoc([], Leaves(entries));
    assert [] + [Leaves(entries)] == [Leaves(entries)];
    assert Concat([Leaves(entries)]) == Leaves(entries);
    assert RootChildren(normalized, schema) == Ok(Leaves(entries));
    assert NormalizerBase.NormalizeInput(rec) == Ok(normalized);
  }

  /** `from_xml` undoes `to_xml` on a flat record: the record comes back, as the one-record
      list `normalize_input` makes of it, with the schema inferred for that list. */
  lemma RecordRoundTrip(lib: Lib, entries: seq<(string, Value)>)
    requires entries != [] && FlatRecord(entries)
    requires Schema.InferSchema(lib, PyDict(entries)).Ok?
    ensures ToXmlTree(lib, PyDict(entries)).Ok?
    ensures var normalized := NormalizerBase.NormalizeInput(PyDict(entries)).value;
            FromTree(lib, ToXmlTree(lib, PyDict(entries)).value) ==
              Ok((normalized, Schema.InferSchema(lib, normalized).value))
  {
    RecordTree(lib, entries);
    ParsedLeaves(Element("root", None, [], Leaves(entries)), entries);
  }

  /** A list under a list schema of scalars is written as an empty element `key` followed by
      one sibling `key` per element holding its text: n elements give n + 1 siblings. */
  lemma ListSiblings(key: string, items: seq<Value>, inner: DataType)
    requires !inner.StructType? && !inner.ListType?
    ensures Built(key, PyList(items), ListType(inner)) ==
            Ok([Element(key, None, [], [])] +
               seq(|items|, i requires 0 <= i < |items| => Element(key, Some(ConversionMap.ToXml(items[i], inner)), [], [])))
  {
    var schema := ListType(inner);
    var value := PyList(items);
    var siblings := seq(|items|, i requires 0 <= i < |items| => Element(key, Some(ConversionMap.ToXml(items[i], inner)), [], []));
    var runs := seq(|items|, i requires 0 <= i < |items| => [siblings[i]]);
    var rs := ItemResults(key, value, schema);
    forall i | 0 <= i < |items|
      ensures rs[i] == Ok(runs[i])
    {
    }
    SequenceAllOk(rs, runs);
    ConcatSingles(runs, siblings);
  }

  /** Strings a list may hold that read back unchanged from leaf text. */
  predicate FlatStrings(strs: seq<string>)
  {
    forall i :: 0 <= i < |strs| ==> strs[i] != [] && !IsSpace(strs[i][0]) && !IsSpace(strs[i][|strs[i]| - 1])
  }

  /** The elements of `strs` as Python strings. */
  function Strings(strs: seq<string>): (vs: seq<Value>)
    ensures |vs| == |strs| && forall i :: 0 <= i < |strs| ==> vs[i] == PyStr(strs[i])
  {
    seq(|strs|, i requires 0 <= i < |strs| => PyStr(strs[i]))
  }

  /** The siblings written for a list of strings: the leading empty one, then one leaf per
      string holding it. */
  lemma StringSiblings(key: string, strs: seq<string>, inner: DataType)
    requires inner in {IntegerType, DecimalType, DatetimeType, StringType}
    ensures Built(key, PyList(Strings(strs)), ListType(inner)) ==
            Ok([Element(key, None, [], [])] + seq(|strs|, i requires 0 <= i < |strs| => Element(key, Some(strs[i]), [], [])))
  {
    ListSiblings(key, Strings(strs), inner);
    SiblingTexts(key, strs, inner);
  }

  /** The leaves written for the items of a list of strings hold the strings themselves. */
  lemma SiblingTexts(key: string, strs: seq<string>, inner: DataType)
    requires inner in {IntegerType, DecimalType, DatetimeType, StringType}
    ensures var items := Strings(strs);
            seq(|items|, i requires 0 <= i < |items| => Element(key, Some(ConversionMap.ToXml(items[i], inner)), [], [])) ==
            seq(|strs|, i requires 0 <= i < |strs| => Element(key, Some(strs[i]), [], []))
  {
    var items := Strings(strs);
    forall i | 0 <= i < |strs|
      ensures ConversionMap.ToXml(items[i], inner) == strs[i]
    {
      TextWrittenAsIs(strs[i], inner);
    }
  }

  /** Each sibling written for a list of strings parses to None (the leading empty one) or
      to its string. */
  lemma ListChildParsed(key: string, strs: seq<string>, inner: DataType, i: nat)
    requires inner in {IntegerType, DecimalType, DatetimeType, StringType}
    requires FlatStrings(strs) && i <= |strs|
    ensures Built(key, PyList(Strings(strs)), ListType(inner)).Ok?
    ensures var children := Built(key, PyList(Strings(strs)), ListType(inner)).value;
            |children| == |strs| + 1 && children[i].tag == key &&
            Parsed(children[i]) == ([PyNone] + Strings(strs))[i]
  {
    StringSiblings(key, strs, inner);
    SiblingParsed(key, strs, i);
  }

  /** The i-th of the siblings (a leading empty leaf, then one leaf per string) parses to
      None or to its string. */
  lemma SiblingParsed(key: string, strs: seq<string>, i: nat)
    requires FlatStrings(strs) && i <= |strs|
    ensures var children := [Element(key, None, [], [])] +
              seq(|strs|, j requires 0 <= j < |strs| => Element(key, Some(strs[j]), [], []));
            |children| == |strs| + 1 && children[i].tag == key &&
            Parsed(children[i]) == ([PyNone] + Strings(strs))[i]
  {
    var children := [Element(key, None, [], [])] +
      seq(|strs|, j requires 0 <= j < |strs| => Element(key, Some(strs[j]), [], []));
    if i > 0 {
      assert children[i] == Element(key, Some(strs[i - 1]), [], []);
      StripFixed(strs[i - 1]);
    }
  }

  /** A non-empty list of strings read back: the empty element written before the siblings
      parses to None, so `{key: [s1, ..., sn]}` written as the children of an element reads
      back as `{key: [None, s1, ..., sn]}`. */
  lemma ListReadBack(key: string, strs: seq<string>, inner: DataType)
    requires inner in {IntegerType, DecimalType, DatetimeType, StringType}
    requires strs != [] && FlatStrings(strs)
    ensures Built(key, PyList(Strings(strs)), ListType(inner)).Ok?
    ensures Parsed(Element("root", None, [], Built(key, PyList(Strings(strs)), ListType(inner)).value)) ==
              PyDict([(key, PyList([PyNone] + Strings(strs)))])
  {
    ListChildParsed(key, strs, inner, 0);
    var children := Built(key, PyList(Strings(strs)), ListType(inner)).value;
    var root := Element("root", None, [], children);
    var pairs := ParsedChildren(root);
    forall i | 0 <= i < |pairs|
      ensures pairs[i] == (key, ([PyNone] + Strings(strs))[i])
    {
      ListChildParsed(key, strs, inner, i);
    }
    assert Dicts.Values(pairs) == [PyNone] + Strings(strs);
    CollapseOneTag(pairs, key);
    assert Parsed(root) == PyDict(CollapseAll(pairs));
  }
}
