/** The Python values that configuration dictionaries carry: what a parsed
    HCL or JSON file, or the keyword arguments of an options model, hold. */
module PyValue {

  /** A value of a configuration: scalars, lists and string-keyed dicts.
      Nested containers are values here; only the outermost container an
      operation receives is an object that it updates in place. */
  datatype Value =
    | NoneV
    | BoolV(b: bool)
    | IntV(i: int)
    | FloatV(f: real)
    | StrV(s: string)
    | ListV(items: seq<Value>)
    | DictV(entries: map<string, Value>)

  /** A dict object, whose entries an operation may update in place. */
  class PyDict {
    var entries: map<string, Value>

    constructor(entries: map<string, Value>)
      ensures this.entries == entries
    {
      this.entries := entries;
    }
  }

  /** What a "before" model validator receives: the keyword dict, or any
      other value, which it hands back untouched. */
  datatype Input = DictArg(d: PyDict) | OtherArg(v: Value)

  /** `d.get(key, default)`: the stored value, even when it is `None`. */
  function Get(entries: map<string, Value>, key: string, default: Value): (r: Value)
    ensures key in entries ==> r == entries[key]
    ensures key !in entries ==> r == default
  {
    if key in entries then entries[key] else default
  }

  /** A list of integers as a value. */
  function Ints(xs: seq<int>): (v: Value)
    ensures v.ListV? && |v.items| == |xs| && forall i :: 0 <= i < |xs| ==> v.items[i] == IntV(xs[i])
  {
    if xs == [] then ListV([]) else ListV(Ints(xs[..|xs| - 1]).items + [IntV(xs[|xs| - 1])])
  }

  /** A list of floats as a value. */
  function Floats(xs: seq<real>): (v: Value)
    ensures v.ListV? && |v.items| == |xs| && forall i :: 0 <= i < |xs| ==> v.items[i] == FloatV(xs[i])
  {
    if xs == [] then ListV([]) else ListV(Floats(xs[..|xs| - 1]).items + [FloatV(xs[|xs| - 1])])
  }
}
