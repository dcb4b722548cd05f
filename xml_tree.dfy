/** The element trees of `xml.etree.ElementTree`, as values, and the `parse_element` routine
    that core/io/XML.py, core/Adapters/XML.py and core/io/xml_io.py each define in the same words:
    a leaf becomes its stripped text, an inner element a dict from child tag to parsed child, where
    a tag met more than once collects its children's values in a list. */
module XmlTree {
  import opened Wrappers
  import opened Dicts
  import opened Text
  import opened Values

  /** An element: tag, text (None when the element has none), attributes and children. */
  datatype Element = Element(tag: string, text: Option<string>, attrib: seq<(string, string)>,
                             children: seq<Element>)

  /** `element.text.strip() if element.text else None`. */
  function LeafText(text: Option<string>): (v: Value)
    ensures v == PyNone <==> text.None? || text.value == ""
    ensures v != PyNone ==> v == PyStr(Strip(text.value))
  {
    if text.Some? && text.value != "" then PyStr(Strip(text.value)) else PyNone
  }

  /** One child of the loop: a new tag is assigned its value; a tag already present is turned
      into a list (unless it already holds one) and the value is appended. */
  function Collapse(d: Dict<string, Value>, tag: string, v: Value): Dict<string, Value>
  {
    match Get(d, tag)
    case None => Put(d, tag, v)
    case Some(prev) => Put(d, tag, if prev.PyList? then PyList(prev.items + [v]) else PyList([prev, v]))
  }

  /** The whole loop over the (tag, value) pairs of the children, in document order. */
  function CollapseAll(pairs: seq<(string, Value)>): Dict<string, Value>
  {
    if pairs == [] then []
    else
      var last := pairs[|pairs| - 1];
      Collapse(CollapseAll(pairs[..|pairs| - 1]), last.0, last.1)
  }

  /** The values of the pairs tagged `tag`, in order. */
  function Payloads(pairs: seq<(string, Value)>, tag: string): seq<Value>
  {
    if pairs == [] then []
    else
      var last := pairs[|pairs| - 1];
      Payloads(pairs[..|pairs| - 1], tag) + (if last.0 == tag then [last.1] else [])
  }

  /** The tags of the pairs, each once, in order of first occurrence. */
  function DistinctTags(pairs: seq<(string, Value)>): seq<string>
  {
    if pairs == [] then []
    else
      var last := pairs[|pairs| - 1];
      var before := DistinctTags(pairs[..|pairs| - 1]);
      before + (if last.0 in before then [] else [last.0])
  }

  /** What a tag maps to after the loop: nothing, its only value, or the list of its values. */
  function Grouped(values: seq<Value>): Option<Value>
  {
    if values == [] then None else if |values| == 1 then Some(values[0]) else Some(PyList(values))
  }

  predicate NoList(values: seq<Value>)
  {
    forall i :: 0 <= i < |values| ==> !values[i].PyList?
  }

  /** One `Collapse` step moves the tag's grouped values from `before` to `before + [v]`. */
  lemma CollapseGetStep(d: Dict<string, Value>, tag: string, before: seq<Value>, k: string, v: Value)
    requires Get(d, tag) == Grouped(before) && NoList(before)
    ensures Get(Collapse(d, k, v), tag) == Grouped(before + (if k == tag then [v] else []))
  {
    var r := Collapse(d, k, v);
    if k != tag {
      assert before + [] == before;
      if Get(d, k).None? {
        GetPut(d, k, v, tag);
      } else {
        var prev := Get(d, k).value;
        GetPut(d, k, if prev.PyList? then PyList(prev.items + [v]) else PyList([prev, v]), tag);
      }
    } else {
      CollapseGetSameTag(d, tag, before, v);
    }
  }

  lemma CollapseGetSameTag(d: Dict<string, Value>, tag: string, before: seq<Value>, v: Value)
    requires Get(d, tag) == Grouped(before) && NoList(before)
    ensures Get(Collapse(d, tag, v), tag) == Grouped(before + [v])
  {
    if before == [] {
      GetPut(d, tag, v, tag);
    } else if |before| == 1 {
      var prev := before[0];
      assert !prev.PyList?;
      assert Collapse(d, tag, v) == Put(d, tag, PyList([prev, v]));
      GetPut(d, tag, PyList([prev, v]), tag);
      assert before + [v] == [prev, v];
    } else {
      assert Collapse(d, tag, v) == Put(d, tag, PyList(before + [v]));
      GetPut(d, tag, PyList(before + [v]), tag);
    }
  }

  /** A tag seen once maps to its value and a tag seen n >= 2 times to the list of its n values in
      document order, provided none of those values is itself a list. */
  lemma {:induction false} CollapseAllGet(pairs: seq<(string, Value)>, tag: string)
    requires NoList(Payloads(pairs, tag))
    ensures Get(CollapseAll(pairs), tag) == Grouped(Payloads(pairs, tag))
  {
    if pairs != [] {
      var init := pairs[..|pairs| - 1];
      var last := pairs[|pairs| - 1];
      var before := Payloads(init, tag);
      assert Payloads(pairs, tag) == before + (if last.0 == tag then [last.1] else []);
      assert NoList(before) by {
        assert forall i :: 0 <= i < |before| ==> before[i] == Payloads(pairs, tag)[i];
      }
      CollapseAllGet(init, tag);
      CollapseGetStep(CollapseAll(init), tag, before, last.0, last.1);
    }
  }

  /** The dict's keys are the children's tags, each once, in order of first occurrence. */
  lemma {:induction false} CollapseAllKeys(pairs: seq<(string, Value)>)
    ensures Keys(CollapseAll(pairs)) == DistinctTags(pairs)
  {
    if pairs != [] {
      var init := pairs[..|pairs| - 1];
      var last := pairs[|pairs| - 1];
      CollapseAllKeys(init);
      var d := CollapseAll(init);
      HasKeyIffInKeys(d, last.0);
      if !HasKey(d, last.0) {
        assert Keys(d + [(last.0, last.1)]) == Keys(d) + [last.0];
      }
    }
  }

  /** No tag occurs twice among the dict's keys. */
  lemma {:induction false} CollapseAllDistinct(pairs: seq<(string, Value)>)
    ensures Distinct(Keys(CollapseAll(pairs)))
  {
    if pairs != [] {
      var init := pairs[..|pairs| - 1];
      var last := pairs[|pairs| - 1];
      CollapseAllDistinct(init);
      var d := CollapseAll(init);
      match Get(d, last.0)
      case None => PutPreservesDistinct(d, last.0, last.1);
      case Some(prev) =>
        PutPreservesDistinct(d, last.0, if prev.PyList? then PyList(prev.items + [last.1]) else PyList([prev, last.1]));
    }
  }

  /** The parsed value of an element (the specification of `ParseElement`). */
  function Parsed(e: Element): (v: Value)
    ensures !v.PyList?
    decreases e, 1
  {
    if e.children == [] then LeafText(e.text) else PyDict(CollapseAll(ParsedChildren(e)))
  }

  /** The children's (tag, parsed value) pairs, in document order. */
  function ParsedChildren(e: Element): (pairs: seq<(string, Value)>)
    ensures |pairs| == |e.children|
    ensures forall i :: 0 <= i < |e.children| ==>
              pairs[i] == (e.children[i].tag, Parsed(e.children[i]))
    decreases e, 0
  {
    seq(|e.children|, i requires 0 <= i < |e.children| => (e.children[i].tag, Parsed(e.children[i])))
  }

  /** Extending the processed prefix of the children by one child is one `Collapse` step. */
  lemma CollapsePrefixStep(e: Element, i: nat)
    requires i < |e.children|
    ensures CollapseAll(ParsedChildren(e)[..i + 1]) ==
            Collapse(CollapseAll(ParsedChildren(e)[..i]), e.children[i].tag, Parsed(e.children[i]))
  {
    assert ParsedChildren(e)[..i + 1][..i] == ParsedChildren(e)[..i];
  }

  /** The source's two in-place updates for a repeated tag (wrap in a list, then append) amount
      to one `Collapse` step. */
  lemma WrapThenAppend(d: Dict<string, Value>, tag: string, v: Value, existing: Value)
    requires Get(d, tag) == Some(existing)
    ensures (if existing.PyList? then Put(d, tag, PyList(existing.items + [v]))
             else Put(Put(d, tag, PyList([existing])), tag, PyList([existing] + [v])))
            == Collapse(d, tag, v)
  {
    PutPut(d, tag, PyList([existing]), PyList([existing] + [v]));
    assert [existing] + [v] == [existing, v];
  }

  /** `parse_element(element)`: the loop over the children, growing the result dict in place. */
  method ParseElement(e: Element) returns (v: Value)
    ensures v == Parsed(e)
    decreases e
  {
    if |e.children| == 0 {
      return LeafText(e.text);
    }
    var result: Dict<string, Value> := [];
    var i := 0;
    while i < |e.children|
      invariant 0 <= i <= |e.children|
      invariant result == CollapseAll(ParsedChildren(e)[..i])
    {
      var child := e.children[i];
      var parsedChild := ParseElement(child);
      ghost var before := result;
      if HasKey(result, child.tag) {
        var existing := Get(result, child.tag).value;
        ghost var first := existing;
        if !existing.PyList? {
          result := Put(result, child.tag, PyList([existing]));
          existing := PyList([existing]);
        }
        result := Put(result, child.tag, PyList(existing.items + [parsedChild]));
        WrapThenAppend(before, child.tag, parsedChild, first);
      } else {
        result := Put(result, child.tag, parsedChild);
      }
      CollapsePrefixStep(e, i);
      i := i + 1;
    }
    assert ParsedChildren(e)[..|e.children|] == ParsedChildren(e);
    return PyDict(result);
  }

  /** An inner element parses to a dict whose keys are its children's distinct tags; each tag
      maps to the parsed child when it occurs once and to the list of parsed children otherwise.
      The element's own text and attributes do not appear. */
  lemma ParsedInner(e: Element, tag: string)
    requires e.children != []
    ensures Parsed(e).PyDict?
    ensures Keys(Parsed(e).entries) == DistinctTags(ParsedChildren(e))
    ensures Get(Parsed(e).entries, tag) == Grouped(Payloads(ParsedChildren(e), tag))
    ensures forall t :: Parsed(e.(text := t, attrib := [])) == Parsed(e)
  {
    CollapseAllKeys(ParsedChildren(e));
    PayloadsOfParsedNoList(ParsedChildren(e), tag);
    CollapseAllGet(ParsedChildren(e), tag);
    forall t
      ensures Parsed(e.(text := t, attrib := [])) == Parsed(e)
    {
      assert ParsedChildren(e.(text := t, attrib := [])) == ParsedChildren(e);
    }
  }

  /** No parsed value is a list, so neither is any payload collected from parsed children. */
  lemma {:induction false} PayloadsOfParsedNoList(pairs: seq<(string, Value)>, tag: string)
    requires forall i :: 0 <= i < |pairs| ==> !pairs[i].1.PyList?
    ensures NoList(Payloads(pairs, tag))
  {
    if pairs != [] {
      PayloadsOfParsedNoList(pairs[..|pairs| - 1], tag);
    }
  }

  /** Children whose tags are all different collapse to exactly their (tag, value) pairs. */
  lemma {:induction false} CollapseAllFresh(pairs: seq<(string, Value)>)
    requires Distinct(Keys(pairs))
    ensures CollapseAll(pairs) == pairs
  {
    if pairs != [] {
      var init := pairs[..|pairs| - 1];
      var last := pairs[|pairs| - 1];
      assert Keys(init) == Keys(pairs)[..|pairs| - 1];
      CollapseAllFresh(init);
      assert !HasKey(init, last.0) by {
        forall j | 0 <= j < |init|
          ensures init[j].0 != last.0
        {
          assert Keys(pairs)[j] != Keys(pairs)[|pairs| - 1];
        }
      }
      assert init + [last] == pairs;
    }
  }

  /** A record of distinct keys whose values are non-empty strings without whitespace at
      either end: the values `parse_element` reads back unchanged from leaf text. */
  predicate FlatRecord(entries: seq<(string, Value)>)
  {
    Distinct(Keys(entries)) &&
    forall i :: 0 <= i < |entries| ==>
      (entries[i].1.PyStr? && entries[i].1.s != [] &&
       !IsSpace(entries[i].1.s[0]) && !IsSpace(entries[i].1.s[|entries[i].1.s| - 1]))
  }

  /** The leaf elements that hold a flat record's fields, one per key, in order. */
  function Leaves(entries: seq<(string, Value)>): (es: seq<Element>)
    requires FlatRecord(entries)
    ensures |es| == |entries| &&
            forall i :: 0 <= i < |entries| ==> es[i] == Element(entries[i].0, Some(entries[i].1.s), [], [])
  {
    seq(|entries|, i requires 0 <= i < |entries| => Element(entries[i].0, Some(entries[i].1.s), [], []))
  }

  /** An element whose children are the leaves of a flat record parses to that record. */
  lemma ParsedLeaves(e: Element, entries: seq<(string, Value)>)
    requires entries != [] && FlatRecord(entries) && e.children == Leaves(entries)
    ensures Parsed(e) == PyDict(entries)
  {
    forall i | 0 <= i < |entries|
      ensures ParsedChildren(e)[i] == entries[i]
    {
      StripFixed(entries[i].1.s);
    }
    assert ParsedChildren(e) == entries;
    CollapseAllFresh(entries);
  }

  /** Each leaf of a flat record parses to its string. */
  lemma ParsedLeaf(entries: seq<(string, Value)>, i: nat)
    requires FlatRecord(entries) && i < |entries|
    ensures Parsed(Leaves(entries)[i]) == entries[i].1
  {
    StripFixed(entries[i].1.s);
  }

  /** Pairs that all share one tag collapse to that tag alone, holding their values grouped:
      the value itself for one pair, the list of them for more. */
  lemma {:induction false} CollapseOneTag(pairs: seq<(string, Value)>, tag: string)
    requires pairs != []
    requires forall i :: 0 <= i < |pairs| ==> pairs[i].0 == tag && !pairs[i].1.PyList?
    ensures CollapseAll(pairs) == [(tag, Grouped(Dicts.Values(pairs)).value)]
  {
    var init := pairs[..|pairs| - 1];
    var last := pairs[|pairs| - 1];
    assert Dicts.Values(pairs) == Dicts.Values(init) + [last.1];
    if init == [] {
      assert CollapseAll(init) == [];
    } else {
      CollapseOneTag(init, tag);
      var prev := Grouped(Dicts.Values(init)).value;
      assert Get(CollapseAll(init), tag) == Some(prev);
      if |init| == 1 {
        assert !prev.PyList?;
        assert [prev, last.1] == Dicts.Values(pairs);
      } else {
        assert prev == PyList(Dicts.Values(init));
      }
    }
  }
}
