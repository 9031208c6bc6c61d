/**
 * A JSON value as `serde_json::Value` holds it, with the three accessors the
 * service uses: indexing by key (`v["key"]`), `as_str()` and `as_array()`.
 * Objects are association lists; numbers are kept as integers because nothing
 * in the service reads them.
 */
module Json {
  import opened Wrappers

  datatype Value =
    | Null
    | Bool(b: bool)
    | Num(n: int)
    | Str(s: string)
    | Arr(items: seq<Value>)
    | Obj(fields: seq<(string, Value)>)
  {
    /** `v[key]`: the value bound to `key`, or `Null` for a missing key or a non-object. */
    function Index(key: string): (r: Value)
      ensures !Obj? ==> r == Null
      ensures Obj? && (forall i :: 0 <= i < |fields| ==> fields[i].0 != key) ==> r == Null
      ensures Obj? ==> forall i :: 0 <= i < |fields| && fields[i].0 == key && NotBoundBefore(fields, key, i) ==> r == fields[i].1
    {
      if Obj? then Lookup(fields, key) else Null
    }

    /** `as_str()`: the text of a string value, nothing otherwise. */
    function AsStr(): (r: Option<string>)
      ensures r.Some? <==> Str?
      ensures Str? ==> r.value == s
    {
      if Str? then Some(s) else None
    }

    /** `as_array()`: the elements of an array value, nothing otherwise. */
    function AsArray(): (r: Option<seq<Value>>)
      ensures r.Some? <==> Arr?
      ensures Arr? ==> r.value == items
    {
      if Arr? then Some(items) else None
    }
  }

  /** No binding before position `i` has key `key`. */
  ghost predicate NotBoundBefore(fields: seq<(string, Value)>, key: string, i: int)
  {
    forall j :: 0 <= j < i && j < |fields| ==> fields[j].0 != key
  }

  /** First binding of `key` in an association list, `Null` when there is none. */
  function Lookup(fields: seq<(string, Value)>, key: string): (r: Value)
    ensures (forall i :: 0 <= i < |fields| ==> fields[i].0 != key) ==> r == Null
    ensures forall i :: 0 <= i < |fields| && fields[i].0 == key && NotBoundBefore(fields, key, i) ==> r == fields[i].1
  {
    if fields == [] then Null
    else if fields[0].0 == key then fields[0].1
    else
      var r := Lookup(fields[1..], key);
      assert forall i :: 1 <= i < |fields| && NotBoundBefore(fields, key, i) ==> NotBoundBefore(fields[1..], key, i - 1);
      r
  }

  /** `v.as_str().unwrap_or(default)`: the tolerant string read. */
  function StrOrDefault(v: Value, default: string): (r: string)
    ensures v.Str? ==> r == v.s
    ensures !v.Str? ==> r == default
  {
    v.AsStr().GetOr(default)
  }

  /** `v.as_str().unwrap_or("")`, the read used for every text field of an ABI entry. */
  function StrOrEmpty(v: Value): (r: string)
    ensures v.Str? ==> r == v.s
    ensures !v.Str? ==> r == ""
  {
    StrOrDefault(v, "")
  }

  /** `v.as_array().unwrap_or(&empty_vec)`: the tolerant array read. */
  function ArrayOrEmpty(v: Value): (r: seq<Value>)
    ensures v.Arr? ==> r == v.items
    ensures !v.Arr? ==> r == []
  {
    v.AsArray().GetOr([])
  }
}
