/** `XmlIO` of core/io/xml_io.py: input routed through `NormalizeXML.normalize` (so only XML
    text is accepted), an element tree written from the normalised value by its Python type
    alone, and a tree read back with `parse_element`. Elements are values (`XmlTree.Element`);
    the text form is left to `Lib.parseXml`. */
module XmlIo {
  import opened Wrappers
  import opened Dicts
  import opened Text
  import opened Values
  import opened Foreign
  import opened XmlTree
  import NormalizeXml

  /** `normalize_input(data)`: `NormalizeXML.normalize`, every failure rewrapped as a
      ConversionError, so only text that parses as XML gets through. */
  function NormalizeInput(lib: Lib, data: Value): (r: Result<Value>)
    ensures r.Err? ==> r.error == ConversionError
    ensures r.Ok? <==> data.PyStr? && lib.parseXml(data.s).Some?
    ensures r.Ok? ==> var e := lib.parseXml(data.s).value;
                      r.value == PyList([PyDict([("root", PyDict([(e.tag, NormalizeXml.Payload(e))]))])])
  {
    NormalizeXml.Normalize(lib, data).Rewrap(ConversionError)
  }

  // ---------------------------------------------------------------------------------------
  // build_element

  /** The child `build_element(parent, key, value)` appends, directed by the value's type: a
      dict gives one child per entry, a list one child `item` per element, None empty text,
      anything else `str(value)`. */
  function Built(key: string, value: Value): (e: Element)
    ensures e.tag == key && e.attrib == []
    ensures value.PyDict? ==> e.text.None? && |e.children| == |value.entries|
    ensures value.PyList? ==> e.text.None? && |e.children| == |value.items| &&
                              forall i :: 0 <= i < |value.items| ==> e.children[i].tag == "item"
    ensures value.PyNone? ==> e == Element(key, Some(""), [], [])
    ensures !value.PyDict? && !value.PyList? && !value.PyNone? ==> e == Element(key, Some(Str(value)), [], [])
    decreases Nesting(value), 1
  {
    match value
    case PyDict(_) => Element(key, None, [], BuiltEntries(value))
    case PyList(_) => Element(key, None, [], BuiltItems(value))
    case PyNone => Element(key, Some(""), [], [])
    case _ => Element(key, Some(Str(value)), [], [])
  }

  /** `for sub_key, sub_value in value.items(): build_element(child, sub_key, sub_value)`. */
  function BuiltEntries(value: Value): (es: seq<Element>)
    requires value.PyDict?
    ensures |es| == |value.entries| &&
            forall i :: 0 <= i < |value.entries| ==> es[i] == Built(value.entries[i].0, value.entries[i].1)
    decreases Nesting(value), 0
  {
    seq(|value.entries|, i requires 0 <= i < |value.entries| => Built(value.entries[i].0, value.entries[i].1))
  }

  /** `for item in value: build_element(child, "item", item)`. */
  function BuiltItems(value: Value): (es: seq<Element>)
    requires value.PyList?
    ensures |es| == |value.items| && forall i :: 0 <= i < |value.items| ==> es[i] == Built("item", value.items[i])
    decreases Nesting(value), 0
  {
    seq(|value.items|, i requires 0 <= i < |value.items| => Built("item", value.items[i]))
  }

  /** `build_element`, returning the child it appends. */
  method BuildElement(key: string, value: Value) returns (e: Element)
    ensures e == Built(key, value)
    decreases Nesting(value), 1
  {
    if value.PyDict? {
      var children := BuildEntries(value);
      return Element(key, None, [], children);
    } else if value.PyList? {
      var children := BuildItems(value);
      return Element(key, None, [], children);
    } else if value.PyNone? {
      return Element(key, Some(""), [], []);
    } else {
      return Element(key, Some(Str(value)), [], []);
    }
  }

  /** The loop over `value.items()`, one child per entry. */
  method BuildEntries(value: Value) returns (children: seq<Element>)
    requires value.PyDict?
    ensures children == BuiltEntries(value)
    decreases Nesting(value), 0
  {
    var es := value.entries;
    children := [];
    var i := 0;
    while i < |es|
      invariant 0 <= i <= |es|
      invariant children == BuiltEntries(value)[..i]
    {
      var child := BuildElement(es[i].0, es[i].1);
      children := children + [child];
      i := i + 1;
    }
    assert BuiltEntries(value)[..|es|] == BuiltEntries(value);
  }

  /** The loop over a list, one child `item` per element. */
  method BuildItems(value: Value) returns (children: seq<Element>)
    requires value.PyList?
    ensures children == BuiltItems(value)
    decreases Nesting(value), 0
  {
    var xs := value.items;
    children := [];
    var i := 0;
    ghost var all := BuiltItems(value);
    while i < |xs|
      invariant 0 <= i <= |xs|
      invariant children == all[..i]
    {
      var child := BuildElement("item", xs[i]);
      assert all[..i + 1] == all[..i] + [child];
      children := children + [child];
      i := i + 1;
    }
    assert all[..|xs|] == all;
  }

  // ---------------------------------------------------------------------------------------
  // to_xml

  /** The children of the root: one `item` per element of a list, one child per entry of a
      dict; any other root value is a ConversionError. */
  function RootChildren(rootValue: Value): (r: Result<seq<Element>>)
    ensures r.Err? <==> !rootValue.PyList? && !rootValue.PyDict?
    ensures r.Err? ==> r.error == ConversionError
  {
    if rootValue.PyList? then Ok(BuiltItems(rootValue))
    else if rootValue.PyDict? then Ok(BuiltEntries(rootValue))
    else Err(ConversionError)
  }

  /** The element tree `to_xml` serialises: the first key of the first normalised record as
      the root tag, its value giving the children. Since `normalize_input` accepts only XML
      text, `to_xml` succeeds exactly on text that parses, and then writes a `root` element
      holding one child for the parsed element, built from its normalised data. */
  function ToXmlTree(lib: Lib, data: Value): (r: Result<Element>)
    ensures r.Err? ==> r.error == ConversionError
    ensures r.Ok? <==> data.PyStr? && lib.parseXml(data.s).Some?
    ensures r.Ok? ==> var e := lib.parseXml(data.s).value;
                      r.value == Element("root", None, [], [Built(e.tag, NormalizeXml.Payload(e))])
  {
    match NormalizeInput(lib, data)
    case Err(_) => Err(ConversionError)
    case Ok(normalized) =>
      if !normalized.PyList? || normalized.items == [] || !normalized.items[0].PyDict? ||
         normalized.items[0].entries == [] then Err(ConversionError)
      else
        var rootKey := normalized.items[0].entries[0].0;
        var rootValue := normalized.items[0].entries[0].1;
        match RootChildren(rootValue)
        case Ok(children) => Ok(Element(rootKey, None, [], children))
        case Err(_) => Err(ConversionError)
  }

  /** `to_xml` up to `ET.tostring`. The normalised value is always `[{"root": {tag: data}}]`,
      so the root value is a dict and only the loop over its entries is taken. */
  method ToXml(lib: Lib, data: Value) returns (r: Result<Element>)
    ensures r == ToXmlTree(lib, data)
  {
    var normalized := NormalizeInput(lib, data);
    if normalized.Err? {
      return Err(ConversionError);
    }
    var first := normalized.value.items[0];
    var rootKey := first.entries[0].0;
    var rootValue := first.entries[0].1;
    var children := BuildEntries(rootValue);
    return Ok(Element(rootKey, None, [], children));
  }

  // ---------------------------------------------------------------------------------------
  // from_xml

  /** `from_xml(xml_data)`: the parsed root becomes `{root.tag: parse_element(root)}`, which
      goes to `normalize_input`; that wants XML text and refuses a dict, so every call, on any
      input, ends in a ConversionError. */
  function FromXml(lib: Lib, xml: Value): (r: Result<Value>)
    ensures r == Err(ConversionError)
  {
    if !xml.PyStr? then Err(ConversionError)
    else
      match lib.parseXml(xml.s)
      case None => Err(ConversionError)
      case Some(root) => NormalizeInput(lib, PyDict([(root.tag, Parsed(root))])).Rewrap(ConversionError)
  }

  // ---------------------------------------------------------------------------------------
  // Properties

  /** Values `parse_element` reads back from what `build_element` writes: None, strings
      without whitespace at either end, and non-empty dicts of distinct keys holding such
      values. */
  predicate Plain(v: Value)
    decreases Nesting(v)
  {
    match v
    case PyNone => true
    case PyStr(s) => s != [] && !IsSpace(s[0]) && !IsSpace(s[|s| - 1])
    case PyDict(entries) =>
      entries != [] && Distinct(Keys(entries)) && forall i :: 0 <= i < |entries| ==> Plain(entries[i].1)
    case _ => false
  }

  /** `parse_element` undoes `build_element` on a plain value, whatever the key. */
  lemma {:induction false} ParsedBuilt(key: string, v: Value)
    requires Plain(v)
    ensures Parsed(Built(key, v)) == v
    decreases Nesting(v)
  {
    match v
    case PyNone =>
    case PyStr(s) =>
      StripFixed(s);
    case PyDict(entries) =>
      var e := Built(key, v);
      var pairs := ParsedChildren(e);
      forall i | 0 <= i < |entries|
        ensures pairs[i] == entries[i]
      {
        ParsedBuilt(entries[i].0, entries[i].1);
      }
      assert pairs == entries;
      CollapseAllFresh(entries);
  }

  /** A list is read back as the values of its `item` children grouped under `item`: nothing
      for the empty list (an empty element parses to None), the value itself for one element,
      the list for more. */
  lemma ParsedBuiltList(key: string, xs: seq<Value>)
    requires forall i :: 0 <= i < |xs| ==> Plain(xs[i])
    ensures Parsed(Built(key, PyList(xs))) ==
              if xs == [] then PyNone else PyDict([("item", Grouped(xs).value)])
  {
    if xs != [] {
      var e := Built(key, PyList(xs));
      var pairs := ParsedChildren(e);
      forall i | 0 <= i < |xs|
        ensures pairs[i] == ("item", xs[i])
      {
        ParsedBuilt("item", xs[i]);
      }
      assert Dicts.Values(pairs) == xs;
      CollapseOneTag(pairs, "item");
    }
  }
}
