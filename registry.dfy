/** The decorator registries: pepedd/core/node_register.py and
    src/utils/registry.py hold the same `register_class` over a module-level
    dict; the second adds `get_class`. */
module Registry {

  import opened Wrappers

  /** A `registered_classes` dict, from key to class. */
  class Registry<C> {
    var classes: map<string, C>

    constructor ()
      ensures classes == map[]
    {
      classes := map[];
    }

    /** `register_class(key)(cls)`: the entry for `key` becomes `cls` (the last
        registration wins), every other entry is kept, and the class is handed
        back unchanged. */
    method RegisterClass(key: string, cls: C) returns (r: C)
      modifies this
      ensures r == cls
      ensures key in classes && classes[key] == cls
      ensures forall k :: k in old(classes) && k != key ==> k in classes && classes[k] == old(classes)[k]
      ensures classes.Keys == old(classes).Keys + {key}
    {
      classes := classes[key := cls];
      r := cls;
    }

    /** `registered_classes[key]`: a missing key raises KeyError. */
    function Index(key: string): (r: Result<C>)
      reads this
      ensures r.Ok? <==> key in classes
      ensures r.Ok? ==> r.value == classes[key]
      ensures r.Err? ==> r.error == KeyError
    {
      if key in classes then Ok(classes[key]) else Err(KeyError)
    }

    /** `get_class(key)`: `registered_classes.get(key, None)`; never raises. */
    function GetClass(key: string): (r: Option<C>)
      reads this
      ensures r.Some? <==> key in classes
      ensures r.Some? ==> r.value == classes[key]
    {
      if key in classes then Some(classes[key]) else None
    }
  }

  /** Registering then looking up gives the class back, by either lookup;
      registering twice keeps only the second class. */
  method RegisterThenLookup<C>(key: string, first: C, second: C, other: string) returns (a: Option<C>, b: Option<C>, c: Result<C>)
    requires other != key
    ensures a == Some(first)
    ensures b == Some(second)
    ensures c == Err(KeyError)
  {
    var reg := new Registry<C>();
    var _ := reg.RegisterClass(key, first);
    a := reg.GetClass(key);
    var _ := reg.RegisterClass(key, second);
    b := reg.GetClass(key);
    c := reg.Index(other);
  }
}
