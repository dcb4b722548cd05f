/** `Registry` of core/utility/AdapterRegistry.py: a table of categories, each mapping names to
    components, kept in a class attribute that `register` updates in place. Python dicts keep
    insertion order, so both levels are association lists (`Dicts.Dict`), a new key appended and
    an existing key overwritten where it stands. */
module AdapterRegistry {
  import opened Wrappers
  import opened Dicts

  /** The components the repository registers; any other is told apart by an identifier. */
  datatype Component = JsonAdapter | XmlAdapter | Other(id: string)

  type Table = Dict<string, Dict<string, Component>>

  /** The lookup of `get(name, category)`: the component stored under the name in the category;
      an unknown category or name raises ValueError. */
  function Lookup(t: Table, name: string, category: string): (r: Result<Component>)
    ensures r.Ok? <==> HasKey(t, category) && HasKey(Get(t, category).value, name)
    ensures r.Ok? ==> r == Ok(Get(Get(t, category).value, name).value)
    ensures r.Err? ==> r.error == ValueError
  {
    match Get(t, category)
    case None => Err(ValueError)
    case Some(names) =>
      match Get(names, name)
      case None => Err(ValueError)
      case Some(c) => Ok(c)
  }

  /** `list(_registry.get(category, {}).keys())`. */
  function Components(t: Table, category: string): seq<string>
  {
    Keys(GetOr(t, category, []))
  }

  /** The table after `register(name, component, category)`: the category created on first
      use, then the name mapped to the component. The name then finds that component, every
      other (name, category) pair finds what it found before, and the category lists its names
      in first-registration order, the name appended only when it is new. */
  function Registered(t: Table, name: string, component: Component, category: string): (t': Table)
    ensures Lookup(t', name, category) == Ok(component)
    ensures forall n, c :: n != name || c != category ==> Lookup(t', n, c) == Lookup(t, n, c)
    ensures Components(t', category) ==
              if name in Components(t, category) then Components(t, category) else Components(t, category) + [name]
    ensures forall c :: c != category ==> Components(t', c) == Components(t, c)
  {
    var names := GetOr(t, category, []);
    var t' := Put(t, category, Put(names, name, component));
    RegisteredLookups(t, name, component, category);
    RegisteredComponents(t, name, component, category);
    t'
  }

  lemma RegisteredLookups(t: Table, name: string, component: Component, category: string)
    ensures var t' := Put(t, category, Put(GetOr(t, category, []), name, component));
            Lookup(t', name, category) == Ok(component) &&
            forall n, c :: n != name || c != category ==> Lookup(t', n, c) == Lookup(t, n, c)
  {
    var names := GetOr(t, category, []);
    var t' := Put(t, category, Put(names, name, component));
    GetPut(t, category, Put(names, name, component), category);
    GetPut(names, name, component, name);
    forall n, c | n != name || c != category
      ensures Lookup(t', n, c) == Lookup(t, n, c)
    {
      GetPut(t, category, Put(names, name, component), c);
      GetPut(names, name, component, n);
    }
  }

  lemma RegisteredComponents(t: Table, name: string, component: Component, category: string)
    ensures var t' := Put(t, category, Put(GetOr(t, category, []), name, component));
            Components(t', category) ==
              (if name in Components(t, category) then Components(t, category) else Components(t, category) + [name]) &&
            forall c :: c != category ==> Components(t', c) == Components(t, c)
  {
    var names := GetOr(t, category, []);
    var t' := Put(t, category, Put(names, name, component));
    GetPut(t, category, Put(names, name, component), category);
    HasKeyIffInKeys(names, name);
    if !HasKey(names, name) {
      assert Keys(names + [(name, component)]) == Keys(names) + [name];
    }
    forall c | c != category
      ensures Components(t', c) == Components(t, c)
    {
      GetPut(t, category, Put(names, name, component), c);
    }
  }

  /** The class attribute `Registry._registry` and the class methods over it. */
  class Registry {
    var table: Table

    /** The registry as the class defines it: empty. */
    constructor()
      ensures table == []
    {
      table := [];
    }

    /** `Registry.register(name, component, category="general")`. */
    method Register(name: string, component: Component, category: string := "general")
      modifies this
      ensures table == Registered(old(table), name, component, category)
    {
      var names := GetOr(table, category, []);
      if !HasKey(table, category) {
        table := table + [(category, [])];
        names := [];
      }
      table := Put(table, category, Put(names, name, component));
      PutTwice(old(table), category, Put(names, name, component));
    }

    /** `Registry.get(name, category="general")`. */
    function GetComponent(name: string, category: string := "general"): (r: Result<Component>)
      reads this
      ensures r == Lookup(table, name, category)
    {
      Lookup(table, name, category)
    }

    /** `Registry.list_components(category="general")`. */
    function ListComponents(category: string := "general"): (names: seq<string>)
      reads this
      ensures names == Components(table, category)
    {
      Components(table, category)
    }
  }

  /** Adding a new key with an empty dict and then putting a value there is putting it. */
  lemma PutTwice<V>(t: Dict<string, Dict<string, V>>, k: string, v: Dict<string, V>)
    ensures !HasKey(t, k) ==> Put(t + [(k, [])], k, v) == Put(t, k, v)
  {
    if !HasKey(t, k) {
      PutAppended(t, k, [], v);
    }
  }

  lemma {:induction false} PutAppended<V>(t: Dict<string, V>, k: string, v0: V, v: V)
    requires !HasKey(t, k)
    ensures Put(t + [(k, v0)], k, v) == t + [(k, v)]
  {
    if t != [] {
      assert (t + [(k, v0)])[1..] == t[1..] + [(k, v0)];
      PutAppended(t[1..], k, v0, v);
    }
  }

  /** Module-level `register()`: the JSON and XML adapters under `"adapters"`. */
  method RegisterAdapters(r: Registry)
    modifies r
    ensures r.table == Registered(Registered(old(r.table), "JSON", JsonAdapter, "adapters"), "XML", XmlAdapter, "adapters")
  {
    r.Register("JSON", JsonAdapter, "adapters");
    r.Register("XML", XmlAdapter, "adapters");
  }

  /** After `register()`, both adapters are found under `"adapters"` and every other category
      lists what it listed before. */
  lemma AdaptersRegistered(t: Table)
    ensures var t' := Registered(Registered(t, "JSON", JsonAdapter, "adapters"), "XML", XmlAdapter, "adapters");
            Lookup(t', "JSON", "adapters") == Ok(JsonAdapter) &&
            Lookup(t', "XML", "adapters") == Ok(XmlAdapter) &&
            forall c :: c != "adapters" ==> Components(t', c) == Components(t, c)
  {
    var t1 := Registered(t, "JSON", JsonAdapter, "adapters");
    assert "JSON"[0] != "XML"[0];
    assert Lookup(Registered(t1, "XML", XmlAdapter, "adapters"), "JSON", "adapters") == Lookup(t1, "JSON", "adapters");
  }

  /** On a fresh registry, `register()` leaves `"adapters"` listing exactly `["JSON", "XML"]`. */
  lemma AdaptersListed()
    ensures Components(Registered(Registered([], "JSON", JsonAdapter, "adapters"), "XML", XmlAdapter, "adapters"), "adapters") ==
            ["JSON", "XML"]
  {
    FirstRegistration("JSON", JsonAdapter, "adapters");
    XmlAfterJson(Registered([], "JSON", JsonAdapter, "adapters"));
  }

  lemma XmlAfterJson(t: Table)
    requires Components(t, "adapters") == ["JSON"]
    ensures Components(Registered(t, "XML", XmlAdapter, "adapters"), "adapters") == ["JSON", "XML"]
  {
    assert "JSON"[0] != "XML"[0];
    NewName(t, "XML", XmlAdapter, "adapters");
  }

  /** A name the category does not list yet is appended to it. */
  lemma NewName(t: Table, name: string, component: Component, category: string)
    requires name !in Components(t, category)
    ensures Components(Registered(t, name, component, category), category) == Components(t, category) + [name]
  {
  }

  /** The first name registered in an empty registry is the only one its category lists. */
  lemma FirstRegistration(name: string, component: Component, category: string)
    ensures Components(Registered([], name, component, category), category) == [name]
  {
    assert Components([], category) == [];
  }
}
