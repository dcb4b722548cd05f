/** `XMLAdapter` of core/io/XML.py: JSON-like data written as an element tree directed by its
    inferred schema, and an element tree read back as `{root tag: [parsed children]}`.
    Elements are values (`XmlTree.Element`); the text form (`ET.tostring`, `ET.fromstring`) is
    left to `Lib.parseXml`. */
module IoXml {
  import opened Wrappers
  import opened Dicts
  import opened Text
  import opened Values
  import opened Types
  import opened Foreign
  import opened XmlTree
  import Normalize
  import Schema

  // ---------------------------------------------------------------------------------------
  // normalize_input

  /** `normalize_input`: `Normalization.normalize_json` first (a string is decoded as JSON);
      a dict is kept, a list holding exactly one dict gives that dict, and any other list is
      wrapped as `{"root": list}`. A decoded value that is neither, and every failure of
      `normalize_json`, ends in ConversionError. */
  function NormalizeInput(lib: Lib, data: Value): (r: Result<Value>)
    ensures r.Ok? ==> r.value.PyDict?
    ensures r.Err? ==> r.error == ConversionError
    ensures data.PyDict? ==> r == Ok(data)
    ensures data.PyList? && |data.items| == 1 && data.items[0].PyDict? ==> r == Ok(data.items[0])
    ensures data.PyList? && !(|data.items| == 1 && data.items[0].PyDict?) ==>
              r == Ok(PyDict([("root", data)]))
    ensures data.PyStr? ==>
              (r.Ok? <==> lib.loadJson(data.s).Some? &&
                          (lib.loadJson(data.s).value.PyDict? || lib.loadJson(data.s).value.PyList?))
    ensures !data.PyDict? && !data.PyList? && !data.PyStr? ==> r == Err(ConversionError)
  {
    match Normalize.NormalizeJson(lib, data)
    case Err(_) => Err(ConversionError)
    case Ok(v) =>
      if v.PyDict? then Ok(v)
      else if v.PyList? then
        if |v.items| == 1 && v.items[0].PyDict? then Ok(v.items[0]) else Ok(PyDict([("root", v)]))
      else Err(ConversionError)
  }

  /** What `normalize_input` gives back is a dict, which it keeps. */
  lemma NormalizeInputIdempotent(lib: Lib, data: Value)
    requires NormalizeInput(lib, data).Ok?
    ensures NormalizeInput(lib, NormalizeInput(lib, data).value) == NormalizeInput(lib, data)
  {
  }

  /** Unlike `Normalization.normalize_input`, a one-element list holding a dict of several keys
      is unwrapped, and the empty list is wrapped rather than rejected. */
  lemma DiffersFromNormalization()
    ensures var two := PyDict([("a", PyNone), ("b", PyNone)]);
            Normalize.NormalizeInput(PyList([two])) == Ok(PyDict([("root", PyList([two]))]))
    ensures forall lib :: NormalizeInput(lib, PyList([PyDict([("a", PyNone), ("b", PyNone)])])) ==
                          Ok(PyDict([("a", PyNone), ("b", PyNone)]))
    ensures Normalize.NormalizeInput(PyList([])).Err?
    ensures forall lib :: NormalizeInput(lib, PyList([])) == Ok(PyDict([("root", PyList([]))]))
  {
  }

  // ---------------------------------------------------------------------------------------
  // build_element

  /** `(value or {}).items()`: a falsy value has no entries; a truthy value that is not a dict
      has no `items` (AttributeError). */
  function EntriesOrEmpty(v: Value): (r: Option<seq<(string, Value)>>)
    ensures r.Some? <==> !Truthy(v) || v.PyDict?
    ensures v.PyDict? ==> r == Some(v.entries)
    ensures r.Some? ==> forall i :: 0 <= i < |r.value| ==> Nesting(r.value[i].1) < Nesting(v)
  {
    if !Truthy(v) then Some([]) else Items(v)
  }

  /** `value or []` iterated: a falsy value yields nothing; a truthy value must be iterable. */
  function ElementsOrEmpty(v: Value): (r: Option<seq<Value>>)
    ensures r.Some? <==> !Truthy(v) || Iterated(v).Some?
    ensures v.PyList? ==> r == Some(v.items)
    ensures r.Some? ==> forall i :: 0 <= i < |r.value| ==> Nesting(r.value[i]) <= Nesting(v)
  {
    if !Truthy(v) then Some([]) else Iterated(v)
  }

  /** `schema.fields.get(key, NestedNullType())` when the schema is a struct, NestedNullType
      otherwise. */
  function FieldSchema(schema: DataType, key: string): DataType
  {
    if schema.StructType? then FieldOrNull(schema.fields, key) else NestedNullType
  }

  /** The schema an item of a list is built with: the element type when it is a struct,
      NestedNullType otherwise (so a list of scalars is written as empty items). */
  function ItemSchema(listSchema: DataType): (t: DataType)
    requires listSchema.ListType?
    ensures !t.ListType?
  {
    if listSchema.innerType.StructType? then listSchema.innerType else NestedNullType
  }

  /** Lists are the only schemas whose items can be no smaller than the value itself. */
  function Rank(schema: DataType): nat
  {
    if schema.ListType? then 1 else 0
  }

  /** The element `build_element(parent, key, value, schema)` appends to its parent: under a
      struct schema a child per entry of `value or {}`, under a list schema an `item` wrapper
      holding an `item` element per element of `value or []`, under NestedNullType the empty
      text, and otherwise `str(value)`. Any failure is a ConversionError. */
  function Built(key: string, value: Value, schema: DataType): (r: Result<Element>)
    ensures r.Err? ==> r.error == ConversionError
    ensures r.Ok? ==> r.value.tag == key && r.value.attrib == []
    ensures schema.NestedNullType? ==> r == Ok(Element(key, Some(""), [], []))
    ensures !schema.StructType? && !schema.ListType? && !schema.NestedNullType? ==>
              r == Ok(Element(key, Some(Str(value)), [], []))
    decreases Nesting(value), Rank(schema), 2
  {
    if schema.StructType? then
      match BuiltFields(value, schema)
      case Ok(children) => Ok(Element(key, None, [], children))
      case Err(e) => Err(e)
    else if schema.ListType? then
      match BuiltItems(value, schema)
      case Ok(wrappers) => Ok(Element(key, None, [], wrappers))
      case Err(e) => Err(e)
    else if schema.NestedNullType? then Ok(Element(key, Some(""), [], []))
    else Ok(Element(key, Some(Str(value)), [], []))
  }

  /** One `build_element` call per entry of `value or {}`, each with its field's schema. */
  function FieldResults(value: Value, schema: DataType): (rs: seq<Result<Element>>)
    requires EntriesOrEmpty(value).Some?
    ensures var es := EntriesOrEmpty(value).value;
            |rs| == |es| && forall i :: 0 <= i < |es| ==> rs[i] == Built(es[i].0, es[i].1, FieldSchema(schema, es[i].0))
    decreases Nesting(value), Rank(schema), 0
  {
    var es := EntriesOrEmpty(value).value;
    seq(|es|, i requires 0 <= i < |es| => Built(es[i].0, es[i].1, FieldSchema(schema, es[i].0)))
  }

  /** The children the loop over `(value or {}).items()` appends, one per entry, in order. */
  function BuiltFields(value: Value, schema: DataType): (r: Result<seq<Element>>)
    ensures r.Err? ==> r.error == ConversionError
    ensures r.Ok? <==> EntriesOrEmpty(value).Some? &&
                       var es := EntriesOrEmpty(value).value;
                       forall i :: 0 <= i < |es| ==> Built(es[i].0, es[i].1, FieldSchema(schema, es[i].0)).Ok?
    ensures r.Ok? ==> var es := EntriesOrEmpty(value).value;
                      |r.value| == |es| &&
                      forall i :: 0 <= i < |es| ==>
                        Built(es[i].0, es[i].1, FieldSchema(schema, es[i].0)) == Ok(r.value[i])
    decreases Nesting(value), Rank(schema), 1
  {
    match EntriesOrEmpty(value)
    case None => Err(ConversionError)
    case Some(_) => Sequence(FieldResults(value, schema))
  }

  /** An `item` wrapper around one built item. */
  function Wrapped(r: Result<Element>): (w: Result<Element>)
    ensures w.Ok? <==> r.Ok?
    ensures w.Ok? ==> w.value == Element("item", None, [], [r.value])
    ensures w.Err? ==> w.error == r.error
  {
    match r
    case Ok(e) => Ok(Element("item", None, [], [e]))
    case Err(e) => Err(e)
  }

  /** One wrapped `build_element(item_wrapper, "item", item, item_schema)` per element. */
  function ItemResults(value: Value, schema: DataType): (rs: seq<Result<Element>>)
    requires schema.ListType? && ElementsOrEmpty(value).Some?
    ensures var xs := ElementsOrEmpty(value).value;
            |rs| == |xs| && forall i :: 0 <= i < |xs| ==> rs[i] == Wrapped(Built("item", xs[i], ItemSchema(schema)))
    decreases Nesting(value), Rank(schema), 0
  {
    var xs := ElementsOrEmpty(value).value;
    seq(|xs|, i requires 0 <= i < |xs| => Wrapped(Built("item", xs[i], ItemSchema(schema))))
  }

  /** The `item` wrappers the loop over `value or []` appends, one per element, in order. */
  function BuiltItems(value: Value, schema: DataType): (r: Result<seq<Element>>)
    requires schema.ListType?
    ensures r.Err? ==> r.error == ConversionError
    ensures r.Ok? <==> ElementsOrEmpty(value).Some? &&
                       var xs := ElementsOrEmpty(value).value;
                       forall i :: 0 <= i < |xs| ==> Built("item", xs[i], ItemSchema(schema)).Ok?
    ensures r.Ok? ==> var xs := ElementsOrEmpty(value).value;
                      |r.value| == |xs| &&
                      forall i :: 0 <= i < |xs| ==>
                        (r.value[i].tag == "item" && r.value[i].text.None? && r.value[i].attrib == [] &&
                         |r.value[i].children| == 1 &&
                         Built("item", xs[i], ItemSchema(schema)) == Ok(r.value[i].children[0]))
    decreases Nesting(value), Rank(schema), 1
  {
    match ElementsOrEmpty(value)
    case None => Err(ConversionError)
    case Some(_) => Sequence(ItemResults(value, schema))
  }

  /** `build_element`: the child is appended first, then filled by the loops of its branch; the
      first failing descendant aborts the whole build. */
  method BuildElement(key: string, value: Value, schema: DataType) returns (r: Result<Element>)
    ensures r == Built(key, value, schema)
    decreases Nesting(value), Rank(schema), 2
  {
    if schema.StructType? {
      var children := BuildFields(value, schema);
      if children.Err? {
        return Err(ConversionError);
      }
      return Ok(Element(key, None, [], children.value));
    } else if schema.ListType? {
      var wrappers := BuildItems(value, schema);
      if wrappers.Err? {
        return Err(ConversionError);
      }
      return Ok(Element(key, None, [], wrappers.value));
    } else if schema.NestedNullType? {
      return Ok(Element(key, Some(""), [], []));
    } else {
      return Ok(Element(key, Some(Str(value)), [], []));
    }
  }

  /** The loop `for sub_key, sub_value in (value or {}).items()`. */
  method BuildFields(value: Value, schema: DataType) returns (r: Result<seq<Element>>)
    ensures r == BuiltFields(value, schema)
    decreases Nesting(value), Rank(schema), 1
  {
    var entries := EntriesOrEmpty(value);
    if entries.None? {
      return Err(ConversionError);
    }
    var es := entries.value;
    ghost var rs := FieldResults(value, schema);
    var children: seq<Element> := [];
    var i := 0;
    while i < |es|
      invariant 0 <= i <= |es|
      invariant Sequence(rs[..i]) == Ok(children)
    {
      var child := BuildElement(es[i].0, es[i].1, FieldSchema(schema, es[i].0));
      if child.Err? {
        SequenceStops(rs, i);
        return Err(ConversionError);
      }
      SequenceStep(rs, i, children);
      children := children + [child.value];
      i := i + 1;
    }
    assert rs[..|es|] == rs;
    return Ok(children);
  }

  /** The loop `for item in value or []`, each item under its own `item` wrapper. */
  method BuildItems(value: Value, schema: DataType) returns (r: Result<seq<Element>>)
    requires schema.ListType?
    ensures r == BuiltItems(value, schema)
    decreases Nesting(value), Rank(schema), 1
  {
    var elements := ElementsOrEmpty(value);
    if elements.None? {
      return Err(ConversionError);
    }
    var xs := elements.value;
    ghost var rs := ItemResults(value, schema);
    var wrappers: seq<Element> := [];
    var i := 0;
    while i < |xs|
      invariant 0 <= i <= |xs|
      invariant Sequence(rs[..i]) == Ok(wrappers)
    {
      var item := BuildElement("item", xs[i], ItemSchema(schema));
      if item.Err? {
        SequenceStops(rs, i);
        return Err(ConversionError);
      }
      SequenceStep(rs, i, wrappers);
      wrappers := wrappers + [Element("item", None, [], [item.value])];
      i := i + 1;
    }
    assert rs[..|xs|] == rs;
    return Ok(wrappers);
  }

  // ---------------------------------------------------------------------------------------
  // to_xml

  /** One root-level `item` wrapper per element of `root_value or []`, holding that element's
      fields built directly inside it (`(item or {}).items()`). */
  function RecordResults(rootValue: Value, rootSchema: DataType): (rs: seq<Result<Element>>)
    requires rootSchema.ListType? && ElementsOrEmpty(rootValue).Some?
    ensures var xs := ElementsOrEmpty(rootValue).value;
            |rs| == |xs| &&
            forall i :: 0 <= i < |xs| ==>
              rs[i] == (match BuiltFields(xs[i], ItemSchema(rootSchema))
                        case Ok(cs) => Ok(Element("item", None, [], cs))
                        case Err(e) => Err(e))
  {
    var xs := ElementsOrEmpty(rootValue).value;
    seq(|xs|, i requires 0 <= i < |xs| =>
      match BuiltFields(xs[i], ItemSchema(rootSchema))
      case Ok(cs) => Ok(Element("item", None, [], cs))
      case Err(e) => Err(e))
  }

  /** The children of the root element: `item` wrappers under a list schema, a child per entry
      under a struct schema (whose value must then be a dict), and ConversionError for any
      other root schema. */
  function RootChildren(rootValue: Value, rootSchema: DataType): (r: Result<seq<Element>>)
    ensures r.Err? ==> r.error == ConversionError
    ensures !rootSchema.ListType? && !rootSchema.StructType? ==> r.Err?
    ensures rootSchema.StructType? ==>
              r == (if rootValue.PyDict? then BuiltFields(rootValue, rootSchema) else Err(ConversionError))
  {
    if rootSchema.ListType? then
      match ElementsOrEmpty(rootValue)
      case None => Err(ConversionError)
      case Some(_) => Sequence(RecordResults(rootValue, rootSchema))
    else if rootSchema.StructType? then
      if rootValue.PyDict? then BuiltFields(rootValue, rootSchema) else Err(ConversionError)
    else Err(ConversionError)
  }

  /** The element tree `to_xml` serialises: the input normalised to a dict, its first key as
      the root tag, the root's children directed by that key's field of the inferred schema
      (a NestedNullType there is refused). Every failure, the empty dict included
      (`next(iter({}))`), is a ConversionError. */
  function ToXmlTree(lib: Lib, data: Value): (r: Result<Element>)
    ensures r.Err? ==> r.error == ConversionError
    ensures r.Ok? ==> NormalizeInput(lib, data).Ok? &&
                      var normalized := NormalizeInput(lib, data).value;
                      normalized.entries != [] && Schema.InferSchema(lib, normalized).Ok? &&
                      r.value.tag == normalized.entries[0].0 && r.value.text.None? && r.value.attrib == []
  {
    match NormalizeInput(lib, data)
    case Err(_) => Err(ConversionError)
    case Ok(normalized) =>
      match Schema.InferSchema(lib, normalized)
      case Err(_) => Err(ConversionError)
      case Ok(schema) =>
        if normalized.entries == [] then Err(ConversionError)
        else
          var rootKey := normalized.entries[0].0;
          var rootSchema := if schema.StructType? then FieldOrNull(schema.fields, rootKey) else schema;
          if rootSchema.NestedNullType? then Err(ConversionError)
          else
            match RootChildren(normalized.entries[0].1, rootSchema)
            case Ok(children) => Ok(Element(rootKey, None, [], children))
            case Err(_) => Err(ConversionError)
  }

  /** `to_xml` up to `ET.tostring`: normalise, infer, pick the root, then the loops that fill
      the root through `build_element`. `normalize_input` always gives a dict, so the branch for
      any other normalised value is not taken. */
  method ToXml(lib: Lib, data: Value) returns (r: Result<Element>)
    ensures r == ToXmlTree(lib, data)
  {
    var normalizedResult := NormalizeInput(lib, data);
    if normalizedResult.Err? {
      return Err(ConversionError);
    }
    var normalized := normalizedResult.value;
    var schemaResult := Schema.InferSchema(lib, normalized);
    if schemaResult.Err? {
      return Err(ConversionError);
    }
    var schema := schemaResult.value;
    if normalized.entries == [] {
      return Err(ConversionError);
    }
    var rootKey := normalized.entries[0].0;
    var rootValue := normalized.entries[0].1;
    var rootSchema := if schema.StructType? then FieldOrNull(schema.fields, rootKey) else schema;
    if rootSchema.NestedNullType? {
      return Err(ConversionError);
    }
    var children := BuildRoot(rootValue, rootSchema);
    if children.Err? {
      return Err(ConversionError);
    }
    return Ok(Element(rootKey, None, [], children.value));
  }

  /** The branch of `to_xml` that fills the root: under a list schema the loop over
      `root_value or []`, each item's fields built inside its own `item` wrapper; under a
      struct schema the fields of the root value. */
  method BuildRoot(rootValue: Value, rootSchema: DataType) returns (r: Result<seq<Element>>)
    ensures r == RootChildren(rootValue, rootSchema)
  {
    if rootSchema.ListType? {
      var elements := ElementsOrEmpty(rootValue);
      if elements.None? {
        return Err(ConversionError);
      }
      var xs := elements.value;
      ghost var rs := RecordResults(rootValue, rootSchema);
      var wrappers: seq<Element> := [];
      var i := 0;
      while i < |xs|
        invariant 0 <= i <= |xs|
        invariant Sequence(rs[..i]) == Ok(wrappers)
      {
        var fields := BuildFields(xs[i], ItemSchema(rootSchema));
        if fields.Err? {
          SequenceStops(rs, i);
          return Err(ConversionError);
        }
        SequenceStep(rs, i, wrappers);
        wrappers := wrappers + [Element("item", None, [], fields.value)];
        i := i + 1;
      }
      assert rs[..|xs|] == rs;
      return Ok(wrappers);
    } else if rootSchema.StructType? {
      if !rootValue.PyDict? {
        return Err(ConversionError);
      }
      r := BuildFields(rootValue, rootSchema);
    } else {
      return Err(ConversionError);
    }
  }

  // ---------------------------------------------------------------------------------------
  // from_xml, infer_schema, describe_schema

  /** `[parse_element(child) for child in root]`. */
  function ParsedItems(root: Element): (vs: seq<Value>)
    ensures |vs| == |root.children| && forall i :: 0 <= i < |vs| ==> vs[i] == Parsed(root.children[i])
  {
    seq(|root.children|, i requires 0 <= i < |root.children| => Parsed(root.children[i]))
  }

  /** `from_xml` after `ET.fromstring`: `{root.tag: [parsed children]}`, passed through
      `normalize_input` (which keeps a dict) and inferred. */
  function FromTree(lib: Lib, root: Element): (r: Result<(Value, DataType)>)
    ensures var data := PyDict([(root.tag, PyList(ParsedItems(root)))]);
            (r.Ok? <==> Schema.InferSchema(lib, data).Ok?) &&
            (r.Ok? ==> r.value == (data, Schema.InferSchema(lib, data).value))
    ensures r.Err? ==> r.error == ConversionError
  {
    var parsed := PyDict([(root.tag, PyList(ParsedItems(root)))]);
    match NormalizeInput(lib, parsed)
    case Err(_) => Err(ConversionError)
    case Ok(normalized) =>
      match Schema.InferSchema(lib, normalized)
      case Err(_) => Err(ConversionError)
      case Ok(schema) => Ok((normalized, schema))
  }

  /** `from_xml(xml_data)`: text that does not parse (or is not text) is a ConversionError. */
  function FromXml(lib: Lib, xml: Value): (r: Result<(Value, DataType)>)
    ensures r.Ok? ==> xml.PyStr? && lib.parseXml(xml.s).Some? && r == FromTree(lib, lib.parseXml(xml.s).value)
    ensures xml.PyStr? && lib.parseXml(xml.s).Some? ==> r == FromTree(lib, lib.parseXml(xml.s).value)
    ensures r.Err? ==> r.error == ConversionError
  {
    if !xml.PyStr? then Err(ConversionError)
    else
      match lib.parseXml(xml.s)
      case None => Err(ConversionError)
      case Some(root) => FromTree(lib, root)
  }

  /** `infer_schema(xml_data)`: inferring again from what `from_xml` returned gives the schema
      `from_xml` returned with it. */
  function InferXmlSchema(lib: Lib, xml: Value): (r: Result<DataType>)
    ensures FromXml(lib, xml).Ok? ==> r == Ok(FromXml(lib, xml).value.1)
    ensures FromXml(lib, xml).Err? ==> r == Err(ConversionError)
  {
    match FromXml(lib, xml)
    case Err(_) => Err(ConversionError)
    case Ok((data, _)) => Schema.InferSchema(lib, data).Rewrap(ConversionError)
  }

  /** `describe_schema(xml_data)`: the description of the inferred schema. */
  function DescribeXmlSchema(lib: Lib, xml: Value): (r: Result<Value>)
    ensures r.Ok? <==> FromXml(lib, xml).Ok?
    ensures r.Ok? ==> r.value == Schema.DescribeSchema(FromXml(lib, xml).value.1)
    ensures r.Err? ==> r.error == ConversionError
  {
    match InferXmlSchema(lib, xml)
    case Err(_) => Err(ConversionError)
    case Ok(schema) => Ok(Schema.DescribeSchema(schema))
  }

  // ---------------------------------------------------------------------------------------
  // Properties

  /** A schema `build_element` writes as `str(value)`. */
  predicate Plain(t: DataType)
  {
    !t.StructType? && !t.ListType? && !t.NestedNullType?
  }

  /** `parse_element` undoes `build_element` on a flat record whose fields have plain
      schemas: one child per key, in order, holding the string itself. */
  lemma FlatRecordRoundTrip(key: string, entries: seq<(string, Value)>, fields: seq<(string, DataType)>)
    requires entries != [] && FlatRecord(entries)
    requires forall i :: 0 <= i < |entries| ==> Plain(FieldOrNull(fields, entries[i].0))
    ensures Built(key, PyDict(entries), StructType(fields)).Ok?
    ensures Parsed(Built(key, PyDict(entries), StructType(fields)).value) == PyDict(entries)
  {
    var schema := StructType(fields);
    forall i | 0 <= i < |entries|
      ensures Built(entries[i].0, entries[i].1, FieldSchema(schema, entries[i].0)) == Ok(Leaves(entries)[i])
    {
    }
    ParsedLeaves(Built(key, PyDict(entries), schema).value, entries);
  }

  /** A list whose element type is not a struct is written as empty items: every element,
      whatever its value, becomes `<item><item></item></item>`. */
  lemma ScalarItemsEmptied(key: string, items: seq<Value>, inner: DataType)
    requires !inner.StructType?
    ensures Built(key, PyList(items), ListType(inner)) ==
            Ok(Element(key, None, [], seq(|items|, i requires 0 <= i < |items| =>
                                            Element("item", None, [], [Element("item", Some(""), [], [])]))))
  {
    var r := BuiltItems(PyList(items), ListType(inner));
    var empty := Element("item", None, [], [Element("item", Some(""), [], [])]);
    assert ItemSchema(ListType(inner)) == NestedNullType;
    assert r.Ok?;
    forall i | 0 <= i < |items|
      ensures r.value[i] == empty
    {
      assert r.value[i].children[0] == Element("item", Some(""), [], []);
    }
    assert r.value == seq(|items|, i requires 0 <= i < |items| => empty);
  }

  /** The parse of an element does not depend on its own tag. */
  lemma {:induction false} ParsedIgnoresTag(e: Element, tag: string)
    ensures Parsed(e.(tag := tag)) == Parsed(e)
  {
    assert ParsedChildren(e.(tag := tag)) == ParsedChildren(e);
  }

  /** `from_xml` keeps only the parsed values of the root's children: retagging them changes
      nothing, so the field names under the root are lost. */
  lemma FromTreeIgnoresChildTags(lib: Lib, root: Element, tags: seq<string>)
    requires |tags| == |root.children|
    ensures var retagged := root.(children := seq(|tags|, i requires 0 <= i < |tags| => root.children[i].(tag := tags[i])));
            FromTree(lib, retagged) == FromTree(lib, root)
  {
    var retagged := root.(children := seq(|tags|, i requires 0 <= i < |tags| => root.children[i].(tag := tags[i])));
    forall i | 0 <= i < |tags|
      ensures ParsedItems(retagged)[i] == ParsedItems(root)[i]
    {
      ParsedIgnoresTag(root.children[i], tags[i]);
    }
    assert ParsedItems(retagged) == ParsedItems(root);
  }

  lemma StringSchema(lib: Lib, s: string)
    ensures Schema.InferSchema(lib, PyStr(s)) == Schema.InferText(lib, s)
  {
  }

  /** The strings of a flat record whose schema infers infer again once listed. */
  lemma FlatValuesInfer(lib: Lib, entries: seq<(string, Value)>)
    requires entries != [] && FlatRecord(entries)
    requires Schema.InferSchema(lib, PyDict(entries)).Ok?
    ensures Schema.InferSchema(lib, PyList(Dicts.Values(entries))).Ok?
  {
    Schema.FlatRecordSchema(lib, entries);
    var list := PyList(Dicts.Values(entries));
    var its := seq(|entries|, i requires 0 <= i < |entries| => Schema.InferText(lib, entries[i].1.s).value);
    forall i | 0 <= i < |entries|
      ensures Schema.SchemaItems(lib, list)[i] == Ok(its[i])
    {
      assert list.items[i] == PyStr(entries[i].1.s);
      StringSchema(lib, entries[i].1.s);
    }
    SequenceAllOk(Schema.SchemaItems(lib, list), its);
    Schema.SchemaListRule(lib, list);
  }

  /** `to_xml` of `{key: record}` for a flat record: the root tagged `key`, a child per field
      holding the string. */
  lemma FlatRecordTree(lib: Lib, key: string, entries: seq<(string, Value)>)
    requires entries != [] && FlatRecord(entries)
    requires Schema.InferSchema(lib, PyDict(entries)).Ok?
    ensures ToXmlTree(lib, PyDict([(key, PyDict(entries))])).Ok?
    ensures var root := ToXmlTree(lib, PyDict([(key, PyDict(entries))])).value;
            root.tag == key && |root.children| == |entries| &&
            root.children == Leaves(entries)
  {
    var rec := PyDict(entries);
    var recSchema := Schema.InferSchema(lib, rec).value;
    Schema.FlatRecordSchema(lib, entries);
    forall i | 0 <= i < |entries|
      ensures Plain(FieldOrNull(recSchema.fields, entries[i].0))
    {
    }
    FlatFieldsBuilt(entries, recSchema.fields);
    OneKeyTree(lib, key, rec);
  }

  /** Under a struct schema whose fields are plain, a flat record's entries are built as its leaves. */
  lemma FlatFieldsBuilt(entries: seq<(string, Value)>, fields: seq<(string, DataType)>)
    requires FlatRecord(entries)
    requires forall i :: 0 <= i < |entries| ==> Plain(FieldOrNull(fields, entries[i].0))
    ensures BuiltFields(PyDict(entries), StructType(fields)) == Ok(Leaves(entries))
  {
    var rs := FieldResults(PyDict(entries), StructType(fields));
    forall i | 0 <= i < |entries|
      ensures rs[i] == Ok(Leaves(entries)[i])
    {
    }
    SequenceAllOk(rs, Leaves(entries));
  }

  /** `{key: record}` with a record inferred as a struct is written as a root `key` holding the
      record's fields. */
  lemma OneKeyTree(lib: Lib, key: string, rec: Value)
    requires rec.PyDict? && Schema.InferSchema(lib, rec).Ok? && Schema.InferSchema(lib, rec).value.StructType?
    ensures ToXmlTree(lib, PyDict([(key, rec)])) ==
              match BuiltFields(rec, Schema.InferSchema(lib, rec).value)
              case Ok(children) => Ok(Element(key, None, [], children))
              case Err(_) => Err(ConversionError)
  {
    var t := Schema.InferSchema(lib, rec).value;
    Schema.SingleKeySchema(lib, key, rec);
    assert FieldOrNull([(key, t)], key) == t;
  }

  /** Writing `{key: record}` for a flat record and reading the tree back gives
      `{key: [the record's values]}`: the values survive, in order, and the field names do
      not. */
  lemma FlatRecordThroughXml(lib: Lib, key: string, entries: seq<(string, Value)>)
    requires entries != [] && FlatRecord(entries)
    requires Schema.InferSchema(lib, PyDict(entries)).Ok?
    ensures var data := PyDict([(key, PyDict(entries))]);
            ToXmlTree(lib, data).Ok? &&
            FromTree(lib, ToXmlTree(lib, data).value).Ok? &&
            FromTree(lib, ToXmlTree(lib, data).value).value.0 == PyDict([(key, PyList(Dicts.Values(entries)))])
  {
    FlatRecordTree(lib, key, entries);
    var root := ToXmlTree(lib, PyDict([(key, PyDict(entries))])).value;
    var vals := Dicts.Values(entries);
    forall i | 0 <= i < |entries|
      ensures ParsedItems(root)[i] == vals[i]
    {
      ParsedLeaf(entries, i);
    }
    assert ParsedItems(root) == vals;
    FlatValuesInfer(lib, entries);
    Schema.SingleKeySchema(lib, key, PyList(vals));
  }
}
