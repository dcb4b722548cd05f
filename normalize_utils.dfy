/** `flatten_structure` (core/io/normalize/NormalizeUtils.py): nested dicts and lists flattened
    into one dict whose keys are the paths joined with a separator.

    `flatten_dict` works through an explicit stack of (key, dict, level) frames: popping a frame
    appends its scalar entries (and the flattened form of its list entries) to `items` in order
    and pushes its nested dicts, so the nested dicts are visited last-first. `flatten_list`
    builds a dict entry by entry. The recursive functions below state, frame by frame, the
    pairs the loops append; the methods are proved to compute exactly those. */
module NormalizeUtils {
  import opened Wrappers
  import opened Dicts
  import opened Text
  import opened Values
  import Missing
  import Normalize

  /** The keyword arguments of `flatten_structure` besides the data and the parent key. */
  datatype Options = Options(sep: string, maxLevel: Option<int>, lowercaseKeys: bool)

  /** A stack entry of `flatten_dict`: `(current_key, current_value, level)`. */
  datatype Frame = Frame(key: string, value: Value, level: int)

  /** `f"{current_key}{sep}{k}" if current_key else k`, lower-cased when asked. */
  function ChildKey(o: Options, parent: string, k: string): string
  {
    var joined := if parent != "" then parent + o.sep + k else k;
    if o.lowercaseKeys then Lower(joined) else joined
  }

  /** `f"{parent_key}{sep}{idx}"`: list positions are never lower-cased. */
  function IndexKey(o: Options, parent: string, idx: nat): string
  {
    parent + o.sep + NatToString(idx)
  }

  /** A dict entry is pushed for later only while the level is below `max_level`. */
  predicate Descends(o: Options, v: Value, level: int)
  {
    v.PyDict? && (o.maxLevel.None? || level < o.maxLevel.value)
  }

  /** What one entry of a popped frame appends to `items`: nothing when it is pushed, the
      flattened list's pairs for a list, and the pair itself otherwise. */
  function EntryItems(o: Options, newKey: string, v: Value, level: int): seq<(string, Value)>
    decreases v, 2
  {
    if Descends(o, v, level) then []
    else if v.PyList? then ListDict(o, v, newKey, |v.items|)
    else [(newKey, v)]
  }

  /** What the loop over the first `n` entries of a popped frame appends to `items`. */
  function DirectItems(o: Options, key: string, d: Value, level: int, n: nat): seq<(string, Value)>
    requires d.PyDict? && n <= |d.entries|
    decreases d, 1, n
  {
    if n == 0 then []
    else
      DirectItems(o, key, d, level, n - 1) +
      EntryItems(o, ChildKey(o, key, d.entries[n - 1].0), d.entries[n - 1].1, level)
  }

  /** The frames the loop over the first `n` entries pushes, in order. */
  function Pushed(o: Options, key: string, d: Value, level: int, n: nat): (fs: seq<Frame>)
    requires d.PyDict? && n <= |d.entries|
    ensures forall f :: f in fs ==> f.value.PyDict? && f.value < d
  {
    if n == 0 then []
    else
      var v := d.entries[n - 1].1;
      Pushed(o, key, d, level, n - 1) +
      (if Descends(o, v, level) then [Frame(ChildKey(o, key, d.entries[n - 1].0), v, level + 1)] else [])
  }

  /** Everything a popped frame contributes before the frame below it is popped: its own
      entries, then each pushed dict (the last pushed first) with all it contributes. */
  function FrameItems(o: Options, key: string, d: Value, level: int): seq<(string, Value)>
    requires d.PyDict?
    decreases d, 3
  {
    DirectItems(o, key, d, level, |d.entries|) + NestedItems(o, key, d, level, |d.entries|)
  }

  /** The contributions of the dicts pushed among the first `n` entries, last pushed first. */
  function NestedItems(o: Options, key: string, d: Value, level: int, n: nat): seq<(string, Value)>
    requires d.PyDict? && n <= |d.entries|
    decreases d, 2, n
  {
    if n == 0 then []
    else
      var v := d.entries[n - 1].1;
      (if Descends(o, v, level) then FrameItems(o, ChildKey(o, key, d.entries[n - 1].0), v, level + 1) else []) +
      NestedItems(o, key, d, level, n - 1)
  }

  /** The dict `flatten_list` builds from its first `n` items: a dict item is updated in with its
      flattened form, starting again at level 0; a list item with its own flattened list; any
      other item is stored under its position. */
  function ListDict(o: Options, l: Value, key: string, n: nat): seq<(string, Value)>
    requires l.PyList? && n <= |l.items|
    decreases l, 1, n
  {
    if n == 0 then []
    else
      var prev := ListDict(o, l, key, n - 1);
      var item := l.items[n - 1];
      var newKey := IndexKey(o, key, n - 1);
      if item.PyDict? then PutAll(prev, FromPairs(FrameItems(o, newKey, item, 0)))
      else if item.PyList? then PutAll(prev, ListDict(o, item, newKey, |item.items|))
      else Put(prev, newKey, item)
  }

  /** What the frames still on the stack will append, the top frame first. */
  function Pending(o: Options, stack: seq<Frame>): seq<(string, Value)>
    requires forall f :: f in stack ==> f.value.PyDict?
    decreases |stack|
  {
    if stack == [] then []
    else
      var top := stack[|stack| - 1];
      FrameItems(o, top.key, top.value, top.level) + Pending(o, stack[..|stack| - 1])
  }

  /** The number of frames a frame and everything it pushes will pop. */
  function FrameCount(o: Options, d: Value, level: int): nat
    requires d.PyDict?
    decreases d, 1
  {
    1 + NestedCount(o, d, level, |d.entries|)
  }

  function NestedCount(o: Options, d: Value, level: int, n: nat): nat
    requires d.PyDict? && n <= |d.entries|
    decreases d, 0, n
  {
    if n == 0 then 0
    else
      var v := d.entries[n - 1].1;
      (if Descends(o, v, level) then FrameCount(o, v, level + 1) else 0) + NestedCount(o, d, level, n - 1)
  }

  function PendingCount(o: Options, stack: seq<Frame>): nat
    requires forall f :: f in stack ==> f.value.PyDict?
    decreases |stack|
  {
    if stack == [] then 0
    else
      var top := stack[|stack| - 1];
      FrameCount(o, top.value, top.level) + PendingCount(o, stack[..|stack| - 1])
  }

  lemma PendingSnoc(o: Options, stack: seq<Frame>, f: Frame)
    requires f.value.PyDict? && forall g :: g in stack ==> g.value.PyDict?
    ensures Pending(o, stack + [f]) == FrameItems(o, f.key, f.value, f.level) + Pending(o, stack)
    ensures PendingCount(o, stack + [f]) == FrameCount(o, f.value, f.level) + PendingCount(o, stack)
  {
    assert (stack + [f])[..|stack + [f]| - 1] == stack;
  }

  lemma ConcatAssoc<T>(a: seq<T>, b: seq<T>, c: seq<T>)
    ensures a + (b + c) == (a + b) + c
  {
  }

  /** Replacing a popped frame by the frames it pushed: the pending pairs are the frame's nested
      contributions followed by what was below it. */
  lemma {:induction false} PendingPushed(o: Options, rest: seq<Frame>, key: string, d: Value, level: int, n: nat)
    requires d.PyDict? && n <= |d.entries|
    requires forall f :: f in rest ==> f.value.PyDict?
    ensures Pending(o, rest + Pushed(o, key, d, level, n)) ==
            NestedItems(o, key, d, level, n) + Pending(o, rest)
    decreases n
  {
    if n == 0 {
      assert rest + Pushed(o, key, d, level, n) == rest;
    } else {
      PendingPushed(o, rest, key, d, level, n - 1);
      if Descends(o, d.entries[n - 1].1, level) {
        PendingPushedDescends(o, rest, key, d, level, n);
      } else {
        assert rest + Pushed(o, key, d, level, n) == rest + Pushed(o, key, d, level, n - 1);
        assert NestedItems(o, key, d, level, n) == NestedItems(o, key, d, level, n - 1);
      }
    }
  }

  lemma PendingPushedDescends(o: Options, rest: seq<Frame>, key: string, d: Value, level: int, n: nat)
    requires d.PyDict? && 0 < n <= |d.entries|
    requires forall f :: f in rest ==> f.value.PyDict?
    requires Descends(o, d.entries[n - 1].1, level)
    requires Pending(o, rest + Pushed(o, key, d, level, n - 1)) ==
             NestedItems(o, key, d, level, n - 1) + Pending(o, rest)
    ensures Pending(o, rest + Pushed(o, key, d, level, n)) ==
            NestedItems(o, key, d, level, n) + Pending(o, rest)
  {
    var v := d.entries[n - 1].1;
    var before := rest + Pushed(o, key, d, level, n - 1);
    var nested := NestedItems(o, key, d, level, n - 1);
    var f := Frame(ChildKey(o, key, d.entries[n - 1].0), v, level + 1);
    var own := FrameItems(o, f.key, f.value, f.level);
    assert rest + Pushed(o, key, d, level, n) == before + [f];
    PendingSnoc(o, before, f);
    assert NestedItems(o, key, d, level, n) == own + nested;
    ConcatAssoc(own, nested, Pending(o, rest));
  }

  /** One frame fewer remains to pop once a popped frame is replaced by what it pushed. */
  lemma {:induction false} PendingCountPushed(o: Options, rest: seq<Frame>, key: string, d: Value, level: int, n: nat)
    requires d.PyDict? && n <= |d.entries|
    requires forall f :: f in rest ==> f.value.PyDict?
    ensures PendingCount(o, rest + Pushed(o, key, d, level, n)) ==
            NestedCount(o, d, level, n) + PendingCount(o, rest)
    decreases n
  {
    if n == 0 {
      assert rest + Pushed(o, key, d, level, n) == rest;
    } else {
      PendingCountPushed(o, rest, key, d, level, n - 1);
      var v := d.entries[n - 1].1;
      var before := rest + Pushed(o, key, d, level, n - 1);
      if Descends(o, v, level) {
        var f := Frame(ChildKey(o, key, d.entries[n - 1].0), v, level + 1);
        assert rest + Pushed(o, key, d, level, n) == before + [f];
        PendingSnoc(o, before, f);
      } else {
        assert rest + Pushed(o, key, d, level, n) == before;
      }
    }
  }

  /** `flatten_dict(d, parent_key)`: the stack loop, then `dict(items)`. The stack starts at
      level 0 whatever level the caller passes. */
  method FlattenDict(o: Options, d: Value, parentKey: string) returns (r: seq<(string, Value)>)
    requires d.PyDict?
    ensures r == FromPairs(FrameItems(o, parentKey, d, 0))
    decreases d, 1
  {
    var items: seq<(string, Value)> := [];
    var stack := [Frame(parentKey, d, 0)];
    assert stack[..0] == [];
    while stack != []
      invariant forall f :: f in stack ==> f.value.PyDict? && (f.value == d || f.value < d)
      invariant items + Pending(o, stack) == FrameItems(o, parentKey, d, 0)
      decreases PendingCount(o, stack)
    {
      var top := stack[|stack| - 1];
      ghost var before, whole := items, stack;
      stack := stack[..|stack| - 1];
      assert whole == stack + [top];
      PopStep(o, stack, top, before);
      items, stack := ScanFrame(o, top, items, stack, d);
    }
    assert items + [] == items;
    return FromPairs(items);
  }

  /** Popping a frame and scanning it leaves the pairs still to come unchanged, and one frame
      fewer to pop. */
  lemma PopStep(o: Options, rest: seq<Frame>, top: Frame, before: seq<(string, Value)>)
    requires top.value.PyDict? && forall f :: f in rest ==> f.value.PyDict?
    ensures var n := |top.value.entries|;
            (before + DirectItems(o, top.key, top.value, top.level, n)) +
              Pending(o, rest + Pushed(o, top.key, top.value, top.level, n)) ==
            before + Pending(o, rest + [top])
    ensures PendingCount(o, rest + Pushed(o, top.key, top.value, top.level, |top.value.entries|)) <
            PendingCount(o, rest + [top])
  {
    var n := |top.value.entries|;
    var direct := DirectItems(o, top.key, top.value, top.level, n);
    var nested := NestedItems(o, top.key, top.value, top.level, n);
    PendingSnoc(o, rest, top);
    PendingPushed(o, rest, top.key, top.value, top.level, n);
    PendingCountPushed(o, rest, top.key, top.value, top.level, n);
    ConcatAssoc(direct, nested, Pending(o, rest));
    ConcatAssoc(before, direct, nested + Pending(o, rest));
  }

  /** The `for k, v in current_value.items()` loop of `flatten_dict` for one popped frame: it
      extends `items` and pushes onto `stack`. (`bound` is the dict being flattened, which holds
      every frame's dict.) */
  method ScanFrame(o: Options, top: Frame, items0: seq<(string, Value)>, stack0: seq<Frame>, ghost bound: Value)
    returns (items: seq<(string, Value)>, stack: seq<Frame>)
    requires top.value.PyDict? && (top.value == bound || top.value < bound)
    ensures items == items0 + DirectItems(o, top.key, top.value, top.level, |top.value.entries|)
    ensures stack == stack0 + Pushed(o, top.key, top.value, top.level, |top.value.entries|)
    decreases bound, 0
  {
    items, stack := items0, stack0;
    var entries := top.value.entries;
    var i := 0;
    while i < |entries|
      invariant 0 <= i <= |entries|
      invariant items == items0 + DirectItems(o, top.key, top.value, top.level, i)
      invariant stack == stack0 + Pushed(o, top.key, top.value, top.level, i)
    {
      var k, v := entries[i].0, entries[i].1;
      assert v < top.value;
      var newKey := if top.key != "" then top.key + o.sep + k else k;
      if o.lowercaseKeys {
        newKey := Lower(newKey);
      }
      assert newKey == ChildKey(o, top.key, k);
      ghost var direct := DirectItems(o, top.key, top.value, top.level, i);
      if v.PyDict? && (o.maxLevel.None? || top.level < o.maxLevel.value) {
        stack := stack + [Frame(newKey, v, top.level + 1)];
      } else if v.PyList? {
        var sub := FlattenList(o, v, newKey);
        ConcatAssoc(items0, direct, sub);
        items := items + sub;
      } else {
        ConcatAssoc(items0, direct, [(newKey, v)]);
        items := items + [(newKey, v)];
      }
      i := i + 1;
    }
  }

  /** `flatten_list(l, parent_key)`: the loop over the items, updating a dict. */
  method FlattenList(o: Options, l: Value, parentKey: string) returns (r: seq<(string, Value)>)
    requires l.PyList?
    ensures r == ListDict(o, l, parentKey, |l.items|)
    decreases l, 2
  {
    var items: seq<(string, Value)> := [];
    var idx := 0;
    while idx < |l.items|
      invariant 0 <= idx <= |l.items|
      invariant items == ListDict(o, l, parentKey, idx)
    {
      var item := l.items[idx];
      var newKey := parentKey + o.sep + NatToString(idx);
      if item.PyDict? {
        var sub := FlattenDict(o, item, newKey);
        items := PutAll(items, sub);
      } else if item.PyList? {
        var sub := FlattenList(o, item, newKey);
        items := PutAll(items, sub);
      } else {
        items := Put(items, newKey, item);
      }
      idx := idx + 1;
    }
    return items;
  }

  /** `flatten_dict(d, parent_key)` as a value. */
  function Flattened(o: Options, d: Value, parentKey: string): seq<(string, Value)>
    requires d.PyDict?
  {
    FromPairs(FrameItems(o, parentKey, d, 0))
  }

  /** `[flatten_dict(d, parent_key) for d in data]`, element by element. */
  function ItemResults(o: Options, items: seq<Value>, parentKey: string): (rs: seq<Result<Value>>)
    ensures |rs| == |items|
    ensures forall i :: 0 <= i < |items| ==>
              rs[i] == if items[i].PyDict? then Ok(PyDict(Flattened(o, items[i], parentKey))) else Err(AttributeError)
  {
    seq(|items|, i requires 0 <= i < |items| =>
          if items[i].PyDict? then Ok(PyDict(Flattened(o, items[i], parentKey))) else Err(AttributeError))
  }

  /** `flatten_structure(data, parent_key, ...)`: a list gives one flattened dict per element
      (an element that is not a dict has no `items` and raises AttributeError), a dict gives its
      flattened dict, and anything else raises ValueError. */
  function FlattenedStructure(o: Options, data: Value, parentKey: string): (r: Result<Value>)
    ensures data.PyList? ==> (r.Ok? <==> AllDicts(data.items))
    ensures data.PyList? && r.Ok? ==> r.value.PyList? && |r.value.items| == |data.items|
    ensures data.PyList? && r.Ok? ==> forall i :: 0 <= i < |data.items| ==>
              r.value.items[i] == PyDict(Flattened(o, data.items[i], parentKey))
    ensures data.PyList? && r.Err? ==> r.error == AttributeError
    ensures data.PyDict? ==> r == Ok(PyDict(Flattened(o, data, parentKey)))
    ensures !data.PyList? && !data.PyDict? ==> r == Err(ValueError)
  {
    if data.PyList? then
      match Sequence(ItemResults(o, data.items, parentKey))
      case Ok(vs) => Ok(PyList(vs))
      case Err(e) => Err(e)
    else if data.PyDict? then Ok(PyDict(Flattened(o, data, parentKey)))
    else Err(ValueError)
  }

  /** `flatten_structure`, with its list comprehension as a loop. */
  method FlattenStructure(o: Options, data: Value, parentKey: string) returns (r: Result<Value>)
    ensures r == FlattenedStructure(o, data, parentKey)
  {
    if data.PyList? {
      var out: seq<Value> := [];
      var i := 0;
      while i < |data.items|
        invariant 0 <= i <= |data.items|
        invariant |out| == i
        invariant forall j :: 0 <= j < i ==> data.items[j].PyDict? && out[j] == PyDict(Flattened(o, data.items[j], parentKey))
      {
        if !data.items[i].PyDict? {
          return Err(AttributeError);
        }
        var flat := FlattenDict(o, data.items[i], parentKey);
        out := out + [PyDict(flat)];
        i := i + 1;
      }
      var rs := ItemResults(o, data.items, parentKey);
      assert forall j :: 0 <= j < |rs| ==> rs[j] == Ok(out[j]);
      assert Sequence(rs).value == out;
      return Ok(PyList(out));
    } else if data.PyDict? {
      var flat := FlattenDict(o, data, parentKey);
      return Ok(PyDict(flat));
    }
    return Err(ValueError);
  }

  // ---------------------------------------------------------------------------------------
  // Properties of the flattened dict

  /** Keys are lower-cased and the separator has no upper-case letters, so list positions keep
      keys lower-case too. */
  predicate LowerKeys(o: Options)
  {
    o.lowercaseKeys && Lower(o.sep) == o.sep
  }

  /** No value is a list; with no depth limit no value is a dict either; and under `LowerKeys`
      every key is lower-case. */
  predicate FlatPairs(o: Options, pairs: seq<(string, Value)>)
  {
    forall p :: p in pairs ==>
      !p.1.PyList? && (o.maxLevel.None? ==> !p.1.PyDict?) && (LowerKeys(o) ==> Lower(p.0) == p.0)
  }

  lemma {:induction false} EntryFlat(o: Options, newKey: string, v: Value, level: int)
    requires LowerKeys(o) ==> Lower(newKey) == newKey
    ensures FlatPairs(o, EntryItems(o, newKey, v, level))
    decreases v, 2
  {
    if !Descends(o, v, level) && v.PyList? {
      ListFlat(o, v, newKey, |v.items|);
    }
  }

  lemma {:induction false} DirectFlat(o: Options, key: string, d: Value, level: int, n: nat)
    requires d.PyDict? && n <= |d.entries|
    ensures FlatPairs(o, DirectItems(o, key, d, level, n))
    decreases d, 1, n
  {
    if n > 0 {
      DirectFlat(o, key, d, level, n - 1);
      var k := d.entries[n - 1].0;
      var joined := if key != "" then key + o.sep + k else k;
      LowerIdempotent(joined);
      EntryFlat(o, ChildKey(o, key, k), d.entries[n - 1].1, level);
      FlatPairsJoin(o, DirectItems(o, key, d, level, n - 1),
                    EntryItems(o, ChildKey(o, key, k), d.entries[n - 1].1, level));
    }
  }

  lemma FlatPairsJoin(o: Options, a: seq<(string, Value)>, b: seq<(string, Value)>)
    requires FlatPairs(o, a) && FlatPairs(o, b)
    ensures FlatPairs(o, a + b)
  {
  }

  lemma {:induction false} FrameFlat(o: Options, key: string, d: Value, level: int)
    requires d.PyDict?
    ensures FlatPairs(o, FrameItems(o, key, d, level))
    decreases d, 3
  {
    DirectFlat(o, key, d, level, |d.entries|);
    NestedFlat(o, key, d, level, |d.entries|);
  }

  lemma {:induction false} NestedFlat(o: Options, key: string, d: Value, level: int, n: nat)
    requires d.PyDict? && n <= |d.entries|
    ensures FlatPairs(o, NestedItems(o, key, d, level, n))
    decreases d, 2, n
  {
    if n > 0 {
      var v := d.entries[n - 1].1;
      if Descends(o, v, level) {
        FrameFlat(o, ChildKey(o, key, d.entries[n - 1].0), v, level + 1);
      }
      NestedFlat(o, key, d, level, n - 1);
    }
  }

  lemma {:induction false} ListFlat(o: Options, l: Value, key: string, n: nat)
    requires l.PyList? && n <= |l.items|
    requires LowerKeys(o) ==> Lower(key) == key
    ensures FlatPairs(o, ListDict(o, l, key, n))
    decreases l, 1, n
  {
    if n > 0 {
      ListFlat(o, l, key, n - 1);
      var prev := ListDict(o, l, key, n - 1);
      var item := l.items[n - 1];
      var newKey := IndexKey(o, key, n - 1);
      if LowerKeys(o) {
        LowerConcat(key, o.sep);
        LowerConcat(key + o.sep, NatToString(n - 1));
        LowerDigits(n - 1);
      }
      if item.PyDict? {
        FrameFlat(o, newKey, item, 0);
        PutAllFrom([], FrameItems(o, newKey, item, 0));
        PutAllFrom(prev, FromPairs(FrameItems(o, newKey, item, 0)));
      } else if item.PyList? {
        ListFlat(o, item, newKey, |item.items|);
        PutAllFrom(prev, ListDict(o, item, newKey, |item.items|));
      } else {
        PutFrom(prev, newKey, item);
      }
    }
  }

  /** The flattened dict has distinct keys and holds no lists; with no depth limit it holds no
      dicts either, and with lower-cased keys and a lower-case separator its keys are all
      lower-case. */
  lemma FlattenedIsFlat(o: Options, d: Value, parentKey: string)
    requires d.PyDict?
    ensures FlatPairs(o, Flattened(o, d, parentKey))
    ensures Distinct(Keys(Flattened(o, d, parentKey)))
  {
    FrameFlat(o, parentKey, d, 0);
    PutAllFrom([], FrameItems(o, parentKey, d, 0));
    PutAllDistinct([], FrameItems(o, parentKey, d, 0));
  }

  /** A dict is already flat when no entry is a list or a dict to descend into, no key changes
      under the key rule, and no key repeats. */
  predicate AlreadyFlat(o: Options, d: Value)
    requires d.PyDict?
  {
    Distinct(Keys(d.entries)) &&
    forall i :: 0 <= i < |d.entries| ==>
      !Descends(o, d.entries[i].1, 0) && !d.entries[i].1.PyList? &&
      (o.lowercaseKeys ==> Lower(d.entries[i].0) == d.entries[i].0)
  }

  lemma {:induction false} DirectIdentity(o: Options, d: Value, n: nat)
    requires d.PyDict? && n <= |d.entries| && AlreadyFlat(o, d)
    ensures DirectItems(o, "", d, 0, n) == d.entries[..n]
    ensures NestedItems(o, "", d, 0, n) == []
    decreases n
  {
    if n > 0 {
      DirectIdentity(o, d, n - 1);
      assert d.entries[..n] == d.entries[..n - 1] + [d.entries[n - 1]];
    }
  }

  /** Flattening an already flat dict from an empty parent key gives it back unchanged. */
  lemma FlatIdentity(o: Options, d: Value)
    requires d.PyDict? && AlreadyFlat(o, d)
    ensures Flattened(o, d, "") == d.entries
  {
    DirectIdentity(o, d, |d.entries|);
    assert d.entries[..|d.entries|] == d.entries;
    assert FrameItems(o, "", d, 0) == d.entries + [];
    assert d.entries + [] == d.entries;
    assert Flattened(o, d, "") == FromPairs(d.entries);
    FromPairsDistinct(d.entries);
  }

  /** With no depth limit (and, when keys are lower-cased, a lower-case separator), flattening
      the flattened dict again changes nothing. */
  lemma FlattenIdempotent(o: Options, d: Value, parentKey: string)
    requires d.PyDict? && o.maxLevel.None?
    requires o.lowercaseKeys ==> Lower(o.sep) == o.sep
    ensures Flattened(o, PyDict(Flattened(o, d, parentKey)), "") == Flattened(o, d, parentKey)
  {
    var flat := Flattened(o, d, parentKey);
    FlattenedIsFlat(o, d, parentKey);
    assert forall i :: 0 <= i < |flat| ==> flat[i] in flat;
    FlatIdentity(o, PyDict(flat));
  }

  // ---------------------------------------------------------------------------------------
  // Worked cases

  /** Nested keys are joined with the separator, and the whole key is lower-cased. */
  lemma NestedKeyJoined()
    ensures Flattened(Options("_", None, true), PyDict([("A", PyDict([("B", PyInt(1))]))]), "") ==
            [("a_b", PyInt(1))]
  {
    var o := Options("_", None, true);
    var inner := PyDict([("B", PyInt(1))]);
    var d := PyDict([("A", inner)]);
    assert ChildKey(o, "", "A") == "a" by { assert Lower("A") == "a"; }
    assert ChildKey(o, "a", "B") == "a_b" by { assert Lower("a_B") == "a_b"; }
    assert DirectItems(o, "", d, 0, 1) == [];
    assert FrameItems(o, "a", inner, 1) == [("a_b", PyInt(1))] by {
      assert DirectItems(o, "a", inner, 1, 1) == [("a_b", PyInt(1))];
      assert NestedItems(o, "a", inner, 1, 1) == [];
    }
    assert NestedItems(o, "", d, 0, 1) == [("a_b", PyInt(1))];
    assert FrameItems(o, "", d, 0) == [("a_b", PyInt(1))];
  }

  /** With `max_level` 0 a nested dict is not descended into: it stays the value under its
      own key. */
  lemma DepthLimitKeepsDict()
    ensures Flattened(Options("_", Some(0), true), PyDict([("A", PyDict([("B", PyInt(1))]))]), "") ==
            [("a", PyDict([("B", PyInt(1))]))]
  {
    var o := Options("_", Some(0), true);
    var inner := PyDict([("B", PyInt(1))]);
    var d := PyDict([("A", inner)]);
    assert ChildKey(o, "", "A") == "a" by { assert Lower("A") == "a"; }
    assert DirectItems(o, "", d, 0, 1) == [("a", inner)];
    assert NestedItems(o, "", d, 0, 1) == [];
    assert FrameItems(o, "", d, 0) == [("a", inner)];
  }

  /** List elements are keyed by position; a dict element is flattened beneath its position. */
  lemma ListPositions()
    ensures Flattened(Options("_", None, false), PyDict([("x", PyList([PyInt(1), PyDict([("y", PyInt(2))])]))]), "") ==
            [("x_0", PyInt(1)), ("x_1_y", PyInt(2))]
  {
    var o := Options("_", None, false);
    var e := PyDict([("y", PyInt(2))]);
    var l := PyList([PyInt(1), e]);
    var d := PyDict([("x", l)]);
    assert IndexKey(o, "x", 0) == "x_0";
    assert IndexKey(o, "x", 1) == "x_1";
    assert ChildKey(o, "x_1", "y") == "x_1_y";
    assert FrameItems(o, "x_1", e, 0) == [("x_1_y", PyInt(2))] by {
      assert DirectItems(o, "x_1", e, 0, 1) == [("x_1_y", PyInt(2))];
    }
    assert FromPairs([("x_1_y", PyInt(2))]) == [("x_1_y", PyInt(2))];
    assert ListDict(o, l, "x", 1) == [("x_0", PyInt(1))];
    assert "x_0" != "x_1_y";
    assert PutAll([("x_0", PyInt(1))], [("x_1_y", PyInt(2))]) == [("x_0", PyInt(1)), ("x_1_y", PyInt(2))];
    assert ListDict(o, l, "x", 2) == [("x_0", PyInt(1)), ("x_1_y", PyInt(2))];
    assert DirectItems(o, "", d, 0, 1) == [("x_0", PyInt(1)), ("x_1_y", PyInt(2))];
    assert NestedItems(o, "", d, 0, 1) == [];
    assert FrameItems(o, "", d, 0) == [("x_0", PyInt(1)), ("x_1_y", PyInt(2))];
  }

  /** Inside a list element the level starts again at 0, so with `max_level` 1 a dict two
      levels below the list element is still descended into. */
  lemma LevelRestartsInList()
    ensures Flattened(Options("_", Some(1), false),
                      PyDict([("l", PyList([PyDict([("a", PyDict([("b", PyInt(1))]))])]))]), "") ==
            [("l_0_a_b", PyInt(1))]
  {
    var o := Options("_", Some(1), false);
    var ab := PyDict([("b", PyInt(1))]);
    var e := PyDict([("a", ab)]);
    var l := PyList([e]);
    var d := PyDict([("l", l)]);
    assert ChildKey(o, "l_0_a", "b") == "l_0_a_b";
    assert ChildKey(o, "l_0", "a") == "l_0_a";
    assert FrameItems(o, "l_0_a", ab, 1) == [("l_0_a_b", PyInt(1))] by {
      assert DirectItems(o, "l_0_a", ab, 1, 1) == [("l_0_a_b", PyInt(1))];
    }
    assert FrameItems(o, "l_0", e, 0) == [("l_0_a_b", PyInt(1))] by {
      assert DirectItems(o, "l_0", e, 0, 1) == [];
      assert NestedItems(o, "l_0", e, 0, 1) == [("l_0_a_b", PyInt(1))];
    }
    assert IndexKey(o, "l", 0) == "l_0";
    assert FromPairs([("l_0_a_b", PyInt(1))]) == [("l_0_a_b", PyInt(1))];
    assert ListDict(o, l, "l", 1) == [("l_0_a_b", PyInt(1))];
    assert DirectItems(o, "", d, 0, 1) == [("l_0_a_b", PyInt(1))];
    assert NestedItems(o, "", d, 0, 1) == [];
    assert FrameItems(o, "", d, 0) == [("l_0_a_b", PyInt(1))];
  }

  /** Two paths giving the same key keep the pair emitted last; a nested dict's pairs are
      emitted after its parent's own entries, so here the nested value wins even though its
      dict comes first in the input. */
  lemma CollisionLastWins()
    ensures Flattened(Options("_", None, false), PyDict([("a", PyDict([("b", PyInt(2))])), ("a_b", PyInt(1))]), "") ==
            [("a_b", PyInt(2))]
  {
    var o := Options("_", None, false);
    var inner := PyDict([("b", PyInt(2))]);
    var d := PyDict([("a", inner), ("a_b", PyInt(1))]);
    assert ChildKey(o, "a", "b") == "a_b";
    assert FrameItems(o, "a", inner, 1) == [("a_b", PyInt(2))] by {
      assert DirectItems(o, "a", inner, 1, 1) == [("a_b", PyInt(2))];
      assert NestedItems(o, "a", inner, 1, 1) == [];
    }
    assert DirectItems(o, "", d, 0, 1) == [];
    assert DirectItems(o, "", d, 0, 2) == [("a_b", PyInt(1))];
    assert NestedItems(o, "", d, 0, 1) == [("a_b", PyInt(2))];
    assert NestedItems(o, "", d, 0, 2) == [("a_b", PyInt(2))];
    assert FrameItems(o, "", d, 0) == [("a_b", PyInt(1)), ("a_b", PyInt(2))];
  }

  // ---------------------------------------------------------------------------------------
  // NormalizationUtils: the class's own copies of the string and key helpers

  /** `NormalizationUtils.handle_nulls`: `fill_nulls(data, None)`. */
  function HandleNulls(v: Value): (r: Value)
    ensures v.PyDict? ==> r.PyDict? && Keys(r.entries) == Keys(v.entries)
    ensures v.PyList? ==> r.PyList? && |r.items| == |v.items|
    ensures NullsStandard(r)
  {
    NullsBecomeNone(v);
    Missing.FillNulls(v, PyNone)
  }

  /** Every null leaf (a null token or None) is None itself. */
  predicate NullsStandard(v: Value)
    decreases v
  {
    match v
    case PyDict(entries) => forall i :: 0 <= i < |entries| ==> NullsStandard(entries[i].1)
    case PyList(items) => forall i :: 0 <= i < |items| ==> NullsStandard(items[i])
    case _ => Missing.IsNull(v) ==> v.PyNone?
  }

  lemma {:induction false} NullsBecomeNone(v: Value)
    ensures NullsStandard(Missing.FillNulls(v, PyNone))
    decreases v
  {
    match v
    case PyDict(entries) =>
      forall i | 0 <= i < |entries|
        ensures NullsStandard(Missing.FillEntries(v, PyNone)[i].1)
      {
        NullsBecomeNone(entries[i].1);
      }
    case PyList(items) =>
      forall i | 0 <= i < |items|
        ensures NullsStandard(Missing.FillItems(v, PyNone)[i])
      {
        NullsBecomeNone(items[i]);
      }
    case _ =>
  }

  /** Data whose null leaves are already None is left as it is, so `handle_nulls` is
      idempotent. */
  lemma {:induction false} HandleNullsStandard(v: Value)
    requires NullsStandard(v)
    ensures HandleNulls(v) == v
    decreases v
  {
    match v
    case PyDict(entries) =>
      forall i | 0 <= i < |entries|
        ensures Missing.FillEntries(v, PyNone)[i] == entries[i]
      {
        HandleNullsStandard(entries[i].1);
      }
      assert Missing.FillEntries(v, PyNone) == entries;
    case PyList(items) =>
      forall i | 0 <= i < |items|
        ensures Missing.FillItems(v, PyNone)[i] == items[i]
      {
        HandleNullsStandard(items[i]);
      }
      assert Missing.FillItems(v, PyNone) == items;
    case _ =>
  }

  lemma HandleNullsIdempotent(v: Value)
    ensures HandleNulls(HandleNulls(v)) == HandleNulls(v)
  {
    HandleNullsStandard(HandleNulls(v));
  }

  /** `NormalizationUtils.normalize_whitespace`: the same words joined by single blanks; a
      value that is not a string raises NormalizationError. The shared utility and
      `Normalization.normalize_whitespace` give the same result on every input. */
  function NormalizeWhitespace(v: Value): (r: Result<string>)
    ensures r.Ok? <==> v.PyStr?
    ensures r.Err? ==> r.error == NormalizationError
    ensures r.Ok? ==> Split(r.value) == Split(v.s) && SingleSpaced(r.value)
    ensures r == Normalize.NormalizeWhitespace(v)
  {
    if v.PyStr? then
      Normalize.NormalizeWhitespaceWords(v.s);
      Ok(Join(" ", Split(v.s)))
    else Err(NormalizationError)
  }

  /** `NormalizationUtils.normalize_keys`: the same check order and the same re-cased dict as
      `Normalization.normalize_keys`. */
  function NormalizeKeys(v: Value, keyCase: string): (r: Result<Value>)
    ensures r.Ok? <==> v.PyDict? && (keyCase == "lower" || keyCase == "upper")
    ensures !v.PyDict? ==> r == Err(NormalizationError)
    ensures v.PyDict? && keyCase != "lower" && keyCase != "upper" ==> r == Err(ValueError)
    ensures r == Normalize.NormalizeKeys(v, keyCase)
  {
    if !v.PyDict? then Err(NormalizationError)
    else if keyCase != "lower" && keyCase != "upper" then Err(ValueError)
    else Ok(PyDict(FromPairs(Normalize.CasedPairs(v.entries, keyCase == "lower"))))
  }
}
