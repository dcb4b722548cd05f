/** `Normalization` (core/utility/Normalize.py): shaping JSON-like input into dicts and lists of
    dicts, collapsing whitespace, checking hostnames and re-casing keys. `normalize_url` is not
    part of this model. */
module Normalize {
  import opened Wrappers
  import opened Dicts
  import opened Text
  import opened Values
  import opened Foreign

  /** `normalize_json`: a dict or a list comes back as it is, a string is decoded as JSON, and
      anything else, or text that is not JSON, raises NormalizationError. */
  function NormalizeJson(lib: Lib, v: Value): (r: Result<Value>)
    ensures v.PyDict? || v.PyList? ==> r == Ok(v)
    ensures !(v.PyDict? || v.PyList? || v.PyStr?) ==> r == Err(NormalizationError)
    ensures v.PyStr? ==> (r.Ok? <==> lib.loadJson(v.s).Some?)
    ensures v.PyStr? && r.Ok? ==> r.value == lib.loadJson(v.s).value
    ensures r.Err? ==> r.error == NormalizationError
  {
    if v.PyDict? || v.PyList? then Ok(v)
    else if v.PyStr? then
      match lib.loadJson(v.s)
      case Some(x) => Ok(x)
      case None => Err(NormalizationError)
    else Err(NormalizationError)
  }

  /** `normalize_list`: a dict becomes a one-element list, a list of dicts (the empty list
      included) comes back as it is, and anything else raises NormalizationError. */
  function NormalizeList(v: Value): (r: Result<Value>)
    ensures r.Ok? <==> v.PyDict? || (v.PyList? && AllDicts(v.items))
    ensures r.Ok? ==> r.value.PyList? && AllDicts(r.value.items)
    ensures v.PyDict? ==> r == Ok(PyList([v]))
    ensures v.PyList? && AllDicts(v.items) ==> r == Ok(v)
    ensures r.Err? ==> r.error == NormalizationError
  {
    if v.PyDict? then Ok(PyList([v]))
    else if v.PyList? && AllDicts(v.items) then Ok(v)
    else Err(NormalizationError)
  }

  /** `normalize_list` is idempotent. */
  lemma NormalizeListIdempotent(v: Value)
    requires NormalizeList(v).Ok?
    ensures NormalizeList(NormalizeList(v).value) == NormalizeList(v)
  {
  }

  /** `" ".join(value.split())`; a value that is not a string raises NormalizationError. */
  function NormalizeWhitespace(v: Value): (r: Result<string>)
    ensures r.Ok? <==> v.PyStr?
    ensures r.Err? ==> r.error == NormalizationError
  {
    if v.PyStr? then Ok(Join(" ", Split(v.s))) else Err(NormalizationError)
  }

  /** The result has the input's words in order, and its only whitespace is single blanks
      between words, so it neither starts nor ends with whitespace; normalising it again
      changes nothing. */
  lemma NormalizeWhitespaceWords(s: string)
    ensures Split(NormalizeWhitespace(PyStr(s)).value) == Split(s)
    ensures SingleSpaced(NormalizeWhitespace(PyStr(s)).value)
    ensures NormalizeWhitespace(PyStr(NormalizeWhitespace(PyStr(s)).value)) == NormalizeWhitespace(PyStr(s))
  {
    SplitJoin(Split(s));
    JoinSingleSpaced(Split(s));
  }

  /** `normalize_dict`: a dict comes back as it is, anything else raises NormalizationError. */
  function NormalizeDict(v: Value): (r: Result<Value>)
    ensures r.Ok? <==> v.PyDict?
    ensures r.Ok? ==> r.value == v
    ensures r.Err? ==> r.error == NormalizationError
  {
    if v.PyDict? then Ok(v) else Err(NormalizationError)
  }

  /** The limits `normalize_hostname` enforces on the stripped, lower-cased name: not empty, at
      most 255 characters, and no dot-separated label longer than 63 characters. */
  predicate HostnameWithinLimits(h: string)
  {
    h != "" && |h| <= 255 &&
    forall i :: 0 <= i < |SplitOn(h, '.')| ==> |SplitOn(h, '.')[i]| <= 63
  }

  /** `normalize_hostname`: strip, lower-case, then check the limits; a value that is not a
      string, or a name outside the limits, raises NormalizationError. */
  function NormalizeHostname(v: Value): (r: Result<string>)
    ensures r.Ok? <==> v.PyStr? && HostnameWithinLimits(Lower(Strip(v.s)))
    ensures r.Ok? ==> r.value == Lower(Strip(v.s))
    ensures r.Err? ==> r.error == NormalizationError
  {
    if !v.PyStr? then Err(NormalizationError)
    else
      var h := Lower(Strip(v.s));
      if !HostnameWithinLimits(h) then Err(NormalizationError) else Ok(h)
  }

  lemma LowerKeepsEdges(s: string)
    requires s == [] || (!IsSpace(s[0]) && !IsSpace(s[|s| - 1]))
    ensures Strip(Lower(s)) == Lower(s)
  {
    var l := Lower(s);
    if l != [] {
      assert !IsSpace(l[0]) && !IsSpace(l[|l| - 1]);
      assert StripLeft(l) == l;
    }
  }

  /** An accepted hostname is its own normal form: normalising it again gives it back. */
  lemma NormalizeHostnameIdempotent(v: Value)
    requires NormalizeHostname(v).Ok?
    ensures NormalizeHostname(PyStr(NormalizeHostname(v).value)) == NormalizeHostname(v)
  {
    var h := Lower(Strip(v.s));
    LowerKeepsEdges(Strip(v.s));
    LowerIdempotent(Strip(v.s));
    assert Lower(Strip(h)) == h;
  }

  /** Empty labels and a trailing dot are within the limits: `"a..b."` is accepted. */
  lemma HostnameEmptyLabels()
    ensures NormalizeHostname(PyStr("a..b.")) == Ok("a..b.")
  {
    var s := "a..b.";
    StripLowerExample(s);
    SplitExample(s);
    var parts := SplitOn(s, '.');
    assert forall i :: 0 <= i < |parts| ==> |parts[i]| <= 1;
    assert HostnameWithinLimits(s);
  }

  lemma StripLowerExample(s: string)
    requires s == "a..b."
    ensures Lower(Strip(s)) == s
  {
    assert StripLeft(s) == s;
    assert StripRight(s) == s;
    assert Lower(s) == s;
  }

  lemma SplitExample(s: string)
    requires s == "a..b."
    ensures SplitOn(s, '.') == ["a", "", "b", ""]
  {
    var p1 := SplitOn(".", '.');
    assert ".."[1..] == "." && "b."[1..] == "." && ".b."[1..] == "b." && "..b."[1..] == ".b." && s[1..] == "..b.";
    assert p1 == ["", ""];
    var p2 := SplitOn("b.", '.');
    assert p2 == [['b'] + p1[0]] + p1[1..];
    assert ['b'] + p1[0] == "b" && p1[1..] == [""];
    assert p2 == ["b", ""];
    var p3 := SplitOn(".b.", '.');
    assert p3 == [""] + p2;
    var p4 := SplitOn("..b.", '.');
    assert p4 == [""] + p3;
    var p5 := SplitOn(s, '.');
    assert p5 == [['a'] + p4[0]] + p4[1..];
    assert ['a'] + p4[0] == "a" && p4[1..] == ["", "b", ""];
  }

  /** A name that is a single 64-character label is rejected. */
  lemma HostnameLongLabel(name: string)
    requires |name| == 64 && forall i :: 0 <= i < 64 ==> name[i] == 'a'
    ensures NormalizeHostname(PyStr(name)).Err?
  {
    assert StripLeft(name) == name;
    assert Strip(name) == name;
    assert Lower(name) == name;
    assert '.' !in name;
    SplitOnAbsent(name, '.');
  }

  /** `k.lower()` or `k.upper()`. */
  function CaseKey(k: string, lower: bool): string
  {
    if lower then Lower(k) else Upper(k)
  }

  /** The (re-cased key, value) pairs, in the dict's order. */
  function CasedPairs(entries: seq<(string, Value)>, lower: bool): (ps: seq<(string, Value)>)
    ensures |ps| == |entries|
    ensures forall i :: 0 <= i < |entries| ==> ps[i] == (CaseKey(entries[i].0, lower), entries[i].1)
  {
    seq(|entries|, i requires 0 <= i < |entries| => (CaseKey(entries[i].0, lower), entries[i].1))
  }

  /** `normalize_keys(data, case)`: a dict comprehension over the re-cased pairs. A value that is
      not a dict raises NormalizationError, checked before the case, and a case other than
      `"lower"` and `"upper"` raises ValueError. */
  function NormalizeKeys(v: Value, keyCase: string): (r: Result<Value>)
    ensures r.Ok? <==> v.PyDict? && (keyCase == "lower" || keyCase == "upper")
    ensures !v.PyDict? ==> r == Err(NormalizationError)
    ensures v.PyDict? && keyCase != "lower" && keyCase != "upper" ==> r == Err(ValueError)
    ensures r.Ok? ==> r.value.PyDict?
  {
    if !v.PyDict? then Err(NormalizationError)
    else if keyCase != "lower" && keyCase != "upper" then Err(ValueError)
    else Ok(PyDict(FromPairs(CasedPairs(v.entries, keyCase == "lower"))))
  }

  /** A key of the result is present exactly when some input key re-cases to it, and holds the
      value of the last such input key: colliding keys overwrite earlier ones. */
  lemma NormalizeKeysLookup(v: Value, keyCase: string, k: string)
    requires v.PyDict? && (keyCase == "lower" || keyCase == "upper")
    ensures var pairs := CasedPairs(v.entries, keyCase == "lower");
            Get(NormalizeKeys(v, keyCase).value.entries, k) ==
              if HasKey(pairs, k) then Some(pairs[LastIndexOf(pairs, k)].1) else None
  {
    GetPutAll([], CasedPairs(v.entries, keyCase == "lower"), k);
  }

  /** Every key of the result is in the requested case, and no key occurs twice. */
  lemma {:induction false} NormalizeKeysCased(v: Value, keyCase: string)
    requires v.PyDict? && (keyCase == "lower" || keyCase == "upper")
    ensures var out := NormalizeKeys(v, keyCase).value.entries;
            Distinct(Keys(out)) &&
            forall i :: 0 <= i < |out| ==> CaseKey(out[i].0, keyCase == "lower") == out[i].0
  {
    var lower := keyCase == "lower";
    var pairs := CasedPairs(v.entries, lower);
    var out := FromPairs(pairs);
    PutAllDistinct([], pairs);
    forall i | 0 <= i < |out|
      ensures CaseKey(out[i].0, lower) == out[i].0
    {
      var k := out[i].0;
      assert HasKey(out, k);
      GetPutAll([], pairs, k);
      var j := LastIndexOf(pairs, k);
      LowerIdempotent(v.entries[j].0);
      UpperIdempotent(v.entries[j].0);
    }
  }

  /** `normalize_input`: a dict comes back as it is; a list must be non-empty with a dict first
      (only the first element is checked); a one-element list holding a one-key dict gives that
      dict, and any other list is wrapped as `{"root": list}`. Everything else, and every
      failure, is NormalizationError. */
  function NormalizeInput(v: Value): (r: Result<Value>)
    ensures r.Ok? <==> v.PyDict? || (v.PyList? && v.items != [] && v.items[0].PyDict?)
    ensures r.Ok? ==> r.value.PyDict?
    ensures v.PyDict? ==> r == Ok(v)
    ensures v.PyList? && |v.items| == 1 && v.items[0].PyDict? && |v.items[0].entries| == 1 ==>
              r == Ok(v.items[0])
    ensures (v.PyList? && v.items != [] && v.items[0].PyDict? &&
             !(|v.items| == 1 && |v.items[0].entries| == 1)) ==> r == Ok(PyDict([("root", v)]))
    ensures r.Err? ==> r.error == NormalizationError
  {
    if v.PyDict? then Ok(v)
    else if v.PyList? then
      if v.items == [] || !v.items[0].PyDict? then Err(NormalizationError)
      else if |v.items| == 1 && |v.items[0].entries| == 1 then Ok(v.items[0])
      else Ok(PyDict([("root", v)]))
    else Err(NormalizationError)
  }

  /** Only the first element of a list is checked: `[{}, 1]` is wrapped, not rejected. */
  lemma NormalizeInputChecksFirstOnly()
    ensures NormalizeInput(PyList([PyDict([]), PyInt(1)])) == Ok(PyDict([("root", PyList([PyDict([]), PyInt(1)]))]))
  {
  }

  /** A normalised input is a dict, which normalises to itself. */
  lemma NormalizeInputIdempotent(v: Value)
    requires NormalizeInput(v).Ok?
    ensures NormalizeInput(NormalizeInput(v).value) == NormalizeInput(v)
  {
  }
}
