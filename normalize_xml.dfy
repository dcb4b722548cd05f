/** `NormalizeXML` (core/io/normalize/NormalizeXML.py): an XML element tree as nested dicts. Each
    element becomes `{tag: data}`, where `data` holds the attributes under `"attributes"` and
    then either the stripped text under `"value"` (a leaf) or one entry per child tag. */
module NormalizeXml {
  import opened Wrappers
  import opened Dicts
  import opened Values
  import opened Foreign
  import opened XmlTree

  /** `element.attrib` as a dict value. */
  function AttribValue(attrib: seq<(string, string)>): (v: Value)
    ensures v.PyDict? && |v.entries| == |attrib|
    ensures forall i :: 0 <= i < |attrib| ==> v.entries[i] == (attrib[i].0, PyStr(attrib[i].1))
  {
    PyDict(seq(|attrib|, i requires 0 <= i < |attrib| => (attrib[i].0, PyStr(attrib[i].1))))
  }

  /** `element_data`: the attributes, then the leaf's value or the children's entries, a later
      entry overwriting an earlier one of the same key. */
  function Payload(e: Element): (v: Value)
    ensures v.PyDict?
    decreases e, 1
  {
    if e.children == [] then PyDict([("attributes", AttribValue(e.attrib)), ("value", LeafText(e.text))])
    else PyDict(PutAll([("attributes", AttribValue(e.attrib))], CollapseAll(ChildPayloads(e))))
  }

  /** The children's (tag, `element_data`) pairs, in document order. */
  function ChildPayloads(e: Element): (pairs: seq<(string, Value)>)
    ensures |pairs| == |e.children|
    ensures forall i :: 0 <= i < |e.children| ==> pairs[i] == (e.children[i].tag, Payload(e.children[i]))
    decreases e, 0
  {
    seq(|e.children|, i requires 0 <= i < |e.children| => (e.children[i].tag, Payload(e.children[i])))
  }

  /** Extending the processed prefix of the children by one child is one `Collapse` step. */
  lemma ChildPrefixStep(e: Element, i: nat)
    requires i < |e.children|
    ensures CollapseAll(ChildPayloads(e)[..i + 1]) ==
            Collapse(CollapseAll(ChildPayloads(e)[..i]), e.children[i].tag, Payload(e.children[i]))
  {
    assert ChildPayloads(e)[..i + 1][..i] == ChildPayloads(e)[..i];
  }

  /** `dict.update` with a one-entry dict is one assignment. */
  lemma UpdateOne(d: Dict<string, Value>, k: string, v: Value)
    ensures PutAll(d, [(k, v)]) == Put(d, k, v)
  {
    assert [(k, v)][1..] == [];
  }

  /** `_xml_to_dict(element)`: a leaf's attributes and stripped text, or the loop over the
      children growing `child_dict` in place. */
  method XmlToDict(e: Element) returns (v: Value)
    ensures v == PyDict([(e.tag, Payload(e))])
    decreases e, 1
  {
    if |e.children| == 0 {
      return PyDict([(e.tag, PyDict([("attributes", AttribValue(e.attrib)), ("value", LeafText(e.text))]))]);
    }
    var childDict: Dict<string, Value> := [];
    var i := 0;
    assert ChildPayloads(e)[..0] == [];
    while i < |e.children|
      invariant 0 <= i <= |e.children|
      invariant childDict == CollapseAll(ChildPayloads(e)[..i])
    {
      childDict := AddChild(childDict, e.children[i]);
      ChildPrefixStep(e, i);
      i := i + 1;
    }
    assert ChildPayloads(e)[..|e.children|] == ChildPayloads(e);
    return PyDict([(e.tag, PyDict(PutAll([("attributes", AttribValue(e.attrib))], childDict)))]);
  }

  /** One pass of the loop in `_xml_to_dict`: a repeated tag is wrapped in a list (once) and
      the child's data appended; a new tag is merged in with `update`. */
  method AddChild(childDict: Dict<string, Value>, child: Element) returns (d: Dict<string, Value>)
    ensures d == Collapse(childDict, child.tag, Payload(child))
    decreases child, 2
  {
    var childRepr := XmlToDict(child);
    var data := Get(childRepr.entries, child.tag).value;
    d := childDict;
    if HasKey(d, child.tag) {
      var existing := Get(d, child.tag).value;
      ghost var first := existing;
      if !existing.PyList? {
        d := Put(d, child.tag, PyList([existing]));
        existing := PyList([existing]);
      }
      d := Put(d, child.tag, PyList(existing.items + [data]));
      WrapThenAppend(childDict, child.tag, data, first);
    } else {
      d := PutAll(d, childRepr.entries);
      UpdateOne(childDict, child.tag, data);
    }
  }

  /** `NormalizeXML.normalize(data)`: the parsed tree wrapped as `[{"root": {tag: data}}]`;
      text that does not parse, or a value that is not text, raises NormalizationError. */
  function Normalize(lib: Lib, data: Value): (r: Result<Value>)
    ensures r.Ok? <==> data.PyStr? && lib.parseXml(data.s).Some?
    ensures r.Ok? ==> r.value == PyList([PyDict([("root", PyDict([(lib.parseXml(data.s).value.tag,
                                                            Payload(lib.parseXml(data.s).value))]))])])
    ensures r.Err? ==> r.error == NormalizationError
  {
    if !data.PyStr? then Err(NormalizationError)
    else
      match lib.parseXml(data.s)
      case None => Err(NormalizationError)
      case Some(root) => Ok(PyList([PyDict([("root", PyDict([(root.tag, Payload(root))]))])]))
  }

  lemma {:induction false} PayloadsAreDicts(pairs: seq<(string, Value)>, tag: string)
    requires forall i :: 0 <= i < |pairs| ==> pairs[i].1.PyDict?
    ensures NoList(Payloads(pairs, tag))
    ensures Payloads(pairs, tag) != [] <==> HasKey(pairs, tag)
  {
    if pairs != [] {
      var init := pairs[..|pairs| - 1];
      PayloadsAreDicts(init, tag);
      if HasKey(init, tag) {
        var j :| 0 <= j < |init| && init[j].0 == tag;
        assert pairs[j].0 == tag;
      }
      if HasKey(pairs, tag) && pairs[|pairs| - 1].0 != tag {
        var j :| 0 <= j < |pairs| && pairs[j].0 == tag;
        assert init[j].0 == tag;
      }
    }
  }

  /** A leaf's data holds its attributes and its stripped text (None when it has none). */
  lemma LeafPayload(e: Element)
    requires e.children == []
    ensures Keys(Payload(e).entries) == ["attributes", "value"]
    ensures Get(Payload(e).entries, "attributes") == Some(AttribValue(e.attrib))
    ensures Get(Payload(e).entries, "value") == Some(LeafText(e.text))
  {
  }

  /** An inner element's data maps each child tag to the child's data when the tag occurs once
      and to the list of their data in document order otherwise; `"attributes"` holds the
      attributes unless a child is tagged `attributes`, which replaces them; no other key
      occurs, and the element's own text is dropped. */
  lemma InnerPayload(e: Element, tag: string)
    requires e.children != []
    ensures var pairs := ChildPayloads(e);
            Get(Payload(e).entries, tag) ==
              if Payloads(pairs, tag) != [] then Grouped(Payloads(pairs, tag))
              else if tag == "attributes" then Some(AttribValue(e.attrib))
              else None
    ensures forall t :: Payload(e.(text := t)) == Payload(e)
  {
    var pairs := ChildPayloads(e);
    PayloadsAreDicts(pairs, tag);
    CollapseAllGet(pairs, tag);
    CollapseAllDistinct(pairs);
    GetPutAllDistinct([("attributes", AttribValue(e.attrib))], CollapseAll(pairs), tag);
    forall t
      ensures Payload(e.(text := t)) == Payload(e)
    {
      assert ChildPayloads(e.(text := t)) == pairs;
    }
  }
}
