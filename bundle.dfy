/** The key/value bundle the platform hands to an activity so that it can save
    its state before it is destroyed and read it back when it is re-created.
    Only the four typed accessors the wizard uses are modelled. */
module Bundles {
  import opened Wrappers

  /** A bundle value: the wizard stores only strings and ints. */
  datatype Value = Str(s: string) | Int(i: int)

  /** What `getString(key)` returns: null (None) when the key is absent or is
      mapped to a value that is not a string. */
  function StringAt(entries: map<string, Value>, key: string): (r: Option<string>)
    ensures r.Some? <==> key in entries && entries[key].Str?
    ensures r.Some? ==> entries[key] == Str(r.value)
  {
    if key in entries && entries[key].Str? then Some(entries[key].s) else None
  }

  /** What `getInt(key)` returns: 0 when the key is absent or is mapped to a
      value that is not an int. */
  function IntAt(entries: map<string, Value>, key: string): (r: int)
    ensures key in entries && entries[key].Int? ==> entries[key] == Int(r)
    ensures r != 0 ==> key in entries && entries[key] == Int(r)
  {
    if key in entries && entries[key].Int? then entries[key].i else 0
  }

  /** A mutable bundle object; `entries` is its whole content. */
  class Bundle {
    var entries: map<string, Value>

    constructor ()
      ensures entries == map[]
    {
      entries := map[];
    }

    method PutString(key: string, value: string)
      modifies this
      ensures entries == old(entries)[key := Str(value)]
    {
      entries := entries[key := Str(value)];
    }

    method PutInt(key: string, value: int)
      modifies this
      ensures entries == old(entries)[key := Int(value)]
    {
      entries := entries[key := Int(value)];
    }

    function GetString(key: string): Option<string>
      reads this
    {
      StringAt(entries, key)
    }

    function GetInt(key: string): int
      reads this
    {
      IntAt(entries, key)
    }
  }
}
