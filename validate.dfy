/** `Validation` (core/Validate.py): hostname, non-empty string and type-compatibility checks. */
module Validate {
  import opened Wrappers
  import opened Text
  import opened Values
  import opened Types

  /** A character of `[a-zA-Z0-9-]`. */
  predicate IsLdh(c: char)
  {
    'a' <= c <= 'z' || 'A' <= c <= 'Z' || '0' <= c <= '9' || c == '-'
  }

  /** One to 63 characters of `[a-zA-Z0-9-]`. */
  predicate LdhRun(s: string)
  {
    1 <= |s| <= 63 && forall i :: 0 <= i < |s| ==> IsLdh(s[i])
  }

  /** `re.match(r'^[a-zA-Z0-9-]{1,63}$', part)`: Python's `$` also matches just before a
      final newline, so the run may be followed by one `"\n"`. */
  predicate LabelMatches(part: string)
  {
    LdhRun(part) || (part != [] && part[|part| - 1] == '\n' && LdhRun(part[..|part| - 1]))
  }

  /** Every dot-separated label of `h` matches, in full when `strict`. */
  predicate AllLabels(h: string, strict: bool)
  {
    forall i :: 0 <= i < |SplitOn(h, '.')| ==>
      if strict then LdhRun(SplitOn(h, '.')[i]) else LabelMatches(SplitOn(h, '.')[i])
  }

  /** The shared checks of `validate_hostname`: the length and the final character (an empty
      name has none, so `hostname[-1]` raises IndexError), then the labels; a valid name is
      returned lower-cased. `strict` selects a full match of each label. */
  function CheckHostname(h: string, strict: bool): (r: Result<string>)
    ensures r.Err? ==> (r.error == IndexError <==> h == [])
    ensures r.Err? ==> r.error == IndexError || r.error == ValidationError
    ensures r.Ok? <==> h != [] && |h| <= 255 && h[|h| - 1] != '.' && AllLabels(h, strict)
    ensures r.Ok? ==> r.value == Lower(h)
  {
    if |h| > 255 then Err(ValidationError)
    else if h == [] then Err(IndexError)
    else if h[|h| - 1] == '.' then Err(ValidationError)
    else if !AllLabels(h, strict) then Err(ValidationError)
    else Ok(Lower(h))
  }

  /** `validate_hostname(hostname)`, as written. */
  function ValidateHostname(h: string): (r: Result<string>)
    ensures r.Ok? <==> h != [] && |h| <= 255 && h[|h| - 1] != '.' && AllLabels(h, false)
    ensures r.Ok? ==> r.value == Lower(h)
    ensures r.Err? ==> r.error == (if h == [] then IndexError else ValidationError)
  {
    CheckHostname(h, false)
  }

  /** `validate_hostname` with each label matched in full (`re.fullmatch`), as the docstring
      evidently intends. */
  function ValidateHostnameStrict(h: string): (r: Result<string>)
    ensures r.Ok? <==> h != [] && |h| <= 255 && h[|h| - 1] != '.' && AllLabels(h, true)
    ensures r.Ok? ==> r.value == Lower(h)
    ensures r.Err? ==> r.error == (if h == [] then IndexError else ValidationError)
  {
    CheckHostname(h, true)
  }

  lemma LowerLdhRun(s: string)
    requires LdhRun(s)
    ensures LdhRun(Lower(s))
  {
  }

  lemma LowerLabelMatches(s: string)
    requires LabelMatches(s)
    ensures LabelMatches(Lower(s))
  {
    if !LdhRun(s) {
      var l := Lower(s);
      assert l[..|l| - 1] == Lower(s[..|s| - 1]);
    }
  }

  /** Labels survive lower-casing, so an accepted name, lower-cased, is accepted again and
      comes back unchanged. */
  lemma HostnameIdempotent(h: string, strict: bool)
    requires CheckHostname(h, strict).Ok?
    ensures CheckHostname(Lower(h), strict) == Ok(Lower(h))
  {
    var l := Lower(h);
    SplitOnLower(h, '.');
    forall i | 0 <= i < |SplitOn(l, '.')|
      ensures if strict then LdhRun(SplitOn(l, '.')[i]) else LabelMatches(SplitOn(l, '.')[i])
    {
      var part := SplitOn(h, '.')[i];
      if strict { LowerLdhRun(part); } else { LowerLabelMatches(part); }
    }
    LowerIdempotent(h);
  }

  /** Under the full match, an accepted name holds only lower-case letters, digits, hyphens and
      dots, and has no empty label. */
  lemma StrictHostnameCharacters(h: string)
    requires ValidateHostnameStrict(h).Ok?
    ensures forall i :: 0 <= i < |h| ==> IsLdh(h[i]) || h[i] == '.'
    ensures var r := ValidateHostnameStrict(h).value;
            forall i :: 0 <= i < |r| ==> 'a' <= r[i] <= 'z' || '0' <= r[i] <= '9' || r[i] == '-' || r[i] == '.'
    ensures forall i :: 0 <= i < |SplitOn(h, '.')| ==> SplitOn(h, '.')[i] != []
  {
    var parts := SplitOn(h, '.');
    forall i, k | 0 <= i < |parts| && 0 <= k < |parts[i]|
      ensures IsLdh(parts[i][k])
    {
      assert LdhRun(parts[i]);
    }
    SplitOnChars(h, '.', IsLdh);
  }

  /** The empty name fails at `hostname[-1]`; an empty label, an underscore or a final dot is
      a ValidationError. */
  lemma HostnameExamples()
    ensures ValidateHostname("") == Err(IndexError)
    ensures ValidateHostname("a.") == Err(ValidationError)
    ensures ValidateHostname("a..b") == Err(ValidationError)
    ensures ValidateHostname("a_b") == Err(ValidationError)
  {
    SplitOnAbsent("a_b", '.');
    assert !LdhRun("a_b") by { assert !IsLdh("a_b"[1]); }
    SplitOnAbsent("b", '.');
    assert SplitOn("a..b", '.')[1] == "" by { EmptyLabelExample("a..b"); }
  }

  /** A valid name comes back lower-cased. */
  lemma HostnameLowered()
    ensures ValidateHostname("Ab") == Ok("ab")
  {
    SplitOnAbsent("Ab", '.');
    assert LdhRun("Ab");
    assert Lower("Ab") == "ab" by {
      var l := Lower("Ab");
      assert l[0] == LowerChar('A') == 'a' && l[1] == LowerChar('b') == 'b';
    }
  }

  lemma EmptyLabelExample(s: string)
    requires s == "a..b"
    ensures |SplitOn(s, '.')| >= 2 && SplitOn(s, '.')[1] == ""
  {
    SplitOnAbsent("b", '.');
    assert s[1..] == "..b" && "..b"[1..] == ".b" && ".b"[1..] == "b";
    assert SplitOn(".b", '.') == [""] + ["b"];
    assert SplitOn("..b", '.') == [""] + SplitOn(".b", '.');
    assert SplitOn("..b", '.')[0] == "" && SplitOn("..b", '.')[1] == "";
  }

  /** As written, a last label followed by a newline passes: `"ab\n"` is accepted and returned
      with its newline; the full match rejects it. */
  lemma TrailingNewlineAccepted()
    ensures ValidateHostname("ab\n") == Ok("ab\n")
    ensures ValidateHostnameStrict("ab\n") == Err(ValidationError)
  {
    var h := "ab\n";
    SplitOnAbsent(h, '.');
    assert h[..|h| - 1] == "ab";
    assert LabelMatches(h);
    assert !LdhRun(h) by { assert !IsLdh(h[2]); }
    assert Lower(h) == h;
  }

  /** The name is split at the dots before each label is matched, so a newline may end any
      label, not only the last: `"a\n.b"` is accepted as written and returned with its newline;
      the full match rejects it. */
  lemma InnerNewlineAccepted()
    ensures ValidateHostname("a\n.b") == Ok("a\n.b")
    ensures ValidateHostnameStrict("a\n.b") == Err(ValidationError)
  {
    InnerNewlineLabels();
  }

  /** `"a\n.b".split(".")` is `["a\n", "b"]`: the first label ends in a newline. */
  lemma InnerNewlineLabels()
    ensures SplitOn("a\n.b", '.') == ["a\n", "b"]
    ensures AllLabels("a\n.b", false) && !AllLabels("a\n.b", true)
    ensures Lower("a\n.b") == "a\n.b"
  {
    var h := "a\n.b";
    SplitOnAbsent("b", '.');
    assert h[1..] == "\n.b" && h[1..][1..] == ".b" && ".b"[1..] == "b";
    var r1 := SplitOn(".b", '.');
    assert r1 == ["", "b"];
    var t := h[1..];
    assert t[0] == '\n' && t[1..] == ".b";
    var r2 := SplitOn(t, '.');
    assert r2 == [['\n'] + r1[0]] + r1[1..];
    assert ['\n'] + r1[0] == "\n" && r1[1..] == ["b"];
    assert r2 == ["\n", "b"];
    assert SplitOn(h, '.') == [['a'] + r2[0]] + r2[1..];
    assert ['a'] + r2[0] == "a\n" && r2[1..] == ["b"];
    var l := "a\n";
    assert l[..|l| - 1] == "a";
    assert LdhRun("a") && LabelMatches(l) && LdhRun("b");
    assert !LdhRun(l) by { assert !IsLdh(l[1]); }
  }

  /** `validate_non_empty_string(value)`: a falsy value, or a string that is only whitespace,
      raises ValidationError; any other string comes back stripped. A truthy value that is
      not a string has no `strip` and raises AttributeError. */
  function ValidateNonEmptyString(v: Value): (r: Result<string>)
    ensures r.Ok? <==> v.PyStr? && Strip(v.s) != []
    ensures r.Ok? ==> r.value == Strip(v.s)
    ensures r.Err? ==> r.error == (if !v.PyStr? && Truthy(v) then AttributeError else ValidationError)
  {
    if !Truthy(v) then Err(ValidationError)
    else if !v.PyStr? then Err(AttributeError)
    else if Strip(v.s) == [] then Err(ValidationError)
    else Ok(Strip(v.s))
  }

  /** A validated string is non-empty, has no whitespace at either end, and validates to
      itself. */
  lemma NonEmptyStringIdempotent(v: Value)
    requires ValidateNonEmptyString(v).Ok?
    ensures var s := ValidateNonEmptyString(v).value;
            s != [] && !IsSpace(s[0]) && !IsSpace(s[|s| - 1]) &&
            ValidateNonEmptyString(PyStr(s)) == Ok(s)
  {
    StripFixed(Strip(v.s));
  }

  /** `validate_compatibility(dtype1, dtype2)`: True when `dtype1.is_compatible(dtype2)`,
      ConversionError otherwise. */
  function ValidateCompatibility(a: DataType, b: DataType): (r: Result<bool>)
    ensures r.Ok? <==> IsCompatible(a, b)
    ensures r.Ok? ==> r.value
    ensures r.Err? ==> r.error == ConversionError
  {
    if !IsCompatible(a, b) then Err(ConversionError) else Ok(true)
  }

  /** Compatibility is by class and one-way: a NumericType accepts an IntegerType but not
      conversely, any two list types are compatible whatever their inner types, and a null type
      accepts everything. */
  lemma CompatibilityExamples(t: DataType)
    ensures ValidateCompatibility(NumericType, IntegerType) == Ok(true)
    ensures ValidateCompatibility(IntegerType, NumericType) == Err(ConversionError)
    ensures ValidateCompatibility(ListType(IntegerType), ListType(StringType)) == Ok(true)
    ensures ValidateCompatibility(CategoricalNullType, t) == Ok(true)
  {
    EqMethodAsymmetric();
    CompatibleIsEqMethod(NumericType, IntegerType);
    CompatibleIsEqMethod(IntegerType, NumericType);
    CompatibleIsEqMethod(ListType(IntegerType), ListType(StringType));
    NullCompatibility(CategoricalNullType, t);
  }
}
