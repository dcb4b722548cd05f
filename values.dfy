/** The Python values the engine inspects: None, bool, int, float, Decimal, str, date,
    datetime, list and dict, plus any other object (time, timedelta, bytes, ...).
    Floats and Decimals are carried by their printed form, since the engine only prints them,
    asks whether a float is NaN, and tests their truth value. */
module Values {
  import opened Wrappers
  import opened Text

  datatype Date = Date(year: int, month: int, day: int)

  datatype Datetime = Datetime(date: Date, hour: int, minute: int, second: int, micro: int)

  datatype Value =
    | PyNone
    | PyBool(b: bool)
    | PyInt(i: int)
    | PyFloat(floatRepr: string)          // repr(f): "1.5", "nan", "-0.0", "inf"
    | PyDecimal(decimalText: string)      // str(d): "1.50", "NaN", "0E+3"
    | PyStr(s: string)
    | PyDate(date: Date)
    | PyDatetime(datetime: Datetime)
    | PyList(items: seq<Value>)
    | PyDict(entries: seq<(string, Value)>)
    | PyObject(typeName: string, strText: string, reprText: string, truthy: bool)

  /** `isinstance(v, (int, float))`: a bool is an int. */
  predicate IsIntOrFloat(v: Value)
  {
    v.PyBool? || v.PyInt? || v.PyFloat?
  }

  /** `f != f` for a float. */
  predicate IsNaN(v: Value)
  {
    v.PyFloat? && v.floatRepr == "nan"
  }

  /** A Decimal is zero when its coefficient (the text before the exponent) holds no digit but 0. */
  predicate DecimalIsZero(t: string)
  {
    var coefficient := BeforeExponent(t);
    coefficient != [] &&
    (forall i :: 0 <= i < |coefficient| ==> coefficient[i] in "+-.0") &&
    (exists i :: 0 <= i < |coefficient| && coefficient[i] == '0')
  }

  function BeforeExponent(t: string): (r: string)
    ensures r <= t
  {
    if t == [] || t[0] == 'E' || t[0] == 'e' then [] else [t[0]] + BeforeExponent(t[1..])
  }

  /** `bool(v)`. */
  predicate Truthy(v: Value)
  {
    match v
    case PyNone => false
    case PyBool(b) => b
    case PyInt(i) => i != 0
    case PyFloat(r) => r != "0.0" && r != "-0.0"
    case PyDecimal(t) => !DecimalIsZero(t)
    case PyStr(s) => s != []
    case PyDate(_) => true
    case PyDatetime(_) => true
    case PyList(items) => items != []
    case PyDict(entries) => entries != []
    case PyObject(_, _, _, truthy) => truthy
  }

  /** `date.isoformat()`: `YYYY-MM-DD`. */
  function DateIso(d: Date): string
  {
    SignedPad(d.year, 4) + "-" + ZeroPad(Abs(d.month), 2) + "-" + ZeroPad(Abs(d.day), 2)
  }

  /** `str(datetime)`: `YYYY-MM-DD HH:MM:SS`, followed by `.ffffff` when there are microseconds. */
  function DatetimeIso(t: Datetime): string
  {
    DateIso(t.date) + " " + ClockText(t) +
    (if t.micro != 0 then "." + ZeroPad(Abs(t.micro), 6) else "")
  }

  function ClockText(t: Datetime): string
  {
    ZeroPad(Abs(t.hour), 2) + ":" + ZeroPad(Abs(t.minute), 2) + ":" + ZeroPad(Abs(t.second), 2)
  }

  function Abs(i: int): nat
  {
    if i < 0 then -i else i
  }

  function SignedPad(i: int, width: nat): string
  {
    if i < 0 then "-" + ZeroPad(-i, width) else ZeroPad(i, width)
  }

  /** `repr(s)` for a string: single quotes unless the text holds a single quote and no double
      quote; backslash, the chosen quote, newline, carriage return and tab are escaped. */
  function StrRepr(s: string): string
  {
    var quote := if '\'' in s && '"' !in s then '"' else '\'';
    [quote] + Escape(s, quote) + [quote]
  }

  function Escape(s: string, quote: char): string
  {
    if s == [] then []
    else
      var c := s[0];
      var e :=
        if c == '\\' then "\\\\"
        else if c == quote then ['\\', quote]
        else if c == '\n' then "\\n"
        else if c == '\r' then "\\r"
        else if c == '\t' then "\\t"
        else [c];
      e + Escape(s[1..], quote)
  }

  /** `str(v)`. */
  function Str(v: Value): string
  {
    match v
    case PyStr(s) => s
    case PyDate(d) => DateIso(d)
    case PyDatetime(t) => DatetimeIso(t)
    case PyDecimal(t) => t
    case PyObject(_, text, _, _) => text
    case _ => Repr(v)
  }

  /** `repr(v)`; containers print their elements with `repr`. */
  function Repr(v: Value): string
  {
    match v
    case PyNone => "None"
    case PyBool(b) => if b then "True" else "False"
    case PyInt(i) => IntToString(i)
    case PyFloat(r) => r
    case PyDecimal(t) => "Decimal(" + StrRepr(t) + ")"
    case PyStr(s) => StrRepr(s)
    case PyDate(d) =>
      "datetime.date(" + IntToString(d.year) + ", " + IntToString(d.month) + ", " +
      IntToString(d.day) + ")"
    case PyDatetime(t) =>
      "datetime.datetime(" + IntToString(t.date.year) + ", " + IntToString(t.date.month) + ", " +
      IntToString(t.date.day) + ", " + IntToString(t.hour) + ", " + IntToString(t.minute) +
      (if t.micro != 0 then ", " + IntToString(t.second) + ", " + IntToString(t.micro)
       else if t.second != 0 then ", " + IntToString(t.second)
       else "") + ")"
    case PyList(items) =>
      "[" + Join(", ", seq(|items|, i requires 0 <= i < |items| => Repr(items[i]))) + "]"
    case PyDict(entries) =>
      "{" + Join(", ", seq(|entries|, i requires 0 <= i < |entries| =>
                             StrRepr(entries[i].0) + ": " + Repr(entries[i].1))) + "}"
    case PyObject(_, _, text, _) => text
  }

  /** `isinstance(v, dict)` for every element of a list. */
  predicate AllDicts(items: seq<Value>)
  {
    forall i :: 0 <= i < |items| ==> items[i].PyDict?
  }

  /** The printed forms keep None and booleans apart from the strings that spell them. */
  lemma StrOfScalars()
    ensures Str(PyNone) == "None"
    ensures Str(PyBool(true)) == "True" && Str(PyBool(false)) == "False"
    ensures Str(PyStr("None")) == Str(PyNone)
    ensures Str(PyInt(-42)) == "-42"
  {
    assert NatToString(42) == "42" by {
      assert NatToString(4) == "4";
    }
  }

  /** The largest of some naturals, 0 for none. */
  function MaxOf(ns: seq<nat>): (m: nat)
    ensures forall i :: 0 <= i < |ns| ==> ns[i] <= m
  {
    if ns == [] then 0
    else
      var rest := MaxOf(ns[1..]);
      assert forall i :: 1 <= i < |ns| ==> ns[i] == ns[1..][i - 1];
      if ns[0] > rest then ns[0] else rest
  }

  /** How deeply lists and dicts are nested in a value; a scalar has depth 0. */
  function Nesting(v: Value): (d: nat)
    ensures v.PyList? ==> forall i :: 0 <= i < |v.items| ==> Nesting(v.items[i]) < d
    ensures v.PyDict? ==> forall i :: 0 <= i < |v.entries| ==> Nesting(v.entries[i].1) < d
  {
    match v
    case PyList(items) =>
      var ds := seq(|items|, i requires 0 <= i < |items| => Nesting(items[i]));
      assert forall i :: 0 <= i < |items| ==> ds[i] == Nesting(items[i]);
      1 + MaxOf(ds)
    case PyDict(entries) =>
      var ds := seq(|entries|, i requires 0 <= i < |entries| => Nesting(entries[i].1));
      assert forall i :: 0 <= i < |entries| ==> ds[i] == Nesting(entries[i].1);
      1 + MaxOf(ds)
    case _ => 0
  }

  /** `for x in v`: a list yields its items, a string its characters and a dict its keys, each
      as a one-character or key string; any other value is not iterable (TypeError). */
  function Iterated(v: Value): (r: Option<seq<Value>>)
    ensures r.Some? <==> v.PyList? || v.PyStr? || v.PyDict?
    ensures v.PyList? ==> r == Some(v.items)
    ensures v.PyStr? ==> r.Some? && |r.value| == |v.s| && forall i :: 0 <= i < |v.s| ==> r.value[i] == PyStr([v.s[i]])
    ensures v.PyDict? ==> r.Some? && |r.value| == |v.entries| &&
                          forall i :: 0 <= i < |v.entries| ==> r.value[i] == PyStr(v.entries[i].0)
    ensures r.Some? ==> forall i :: 0 <= i < |r.value| ==> Nesting(r.value[i]) <= Nesting(v)
  {
    match v
    case PyList(items) => Some(items)
    case PyStr(s) => Some(seq(|s|, i requires 0 <= i < |s| => PyStr([s[i]])))
    case PyDict(entries) => Some(seq(|entries|, i requires 0 <= i < |entries| => PyStr(entries[i].0)))
    case _ => None
  }

  /** `v.items()`: only a dict has them (anything else raises AttributeError). */
  function Items(v: Value): (r: Option<seq<(string, Value)>>)
    ensures r.Some? <==> v.PyDict?
    ensures r.Some? ==> r.value == v.entries
  {
    if v.PyDict? then Some(v.entries) else None
  }
}
