/** Values that the remote data service hands back, and Python's way of reading them.

    A response item is a parsed JSON document.  Reading `item['a']['b']` in Python
    either yields the nested value or raises: KeyError when the object lacks the
    key, TypeError when the value being subscripted is not an object at all.
 */
module Responses {

  /** A parsed JSON value; `JNull` is also what Python writes as `None`. */
  datatype Json =
    | JNull
    | JBool(b: bool)
    | JNum(n: int)
    | JStr(s: string)
    | JList(elems: seq<Json>)
    | JObj(fields: map<string, Json>)

  /** The exceptions the core can raise or pass on. */
  datatype Error =
    | KeyError(key: string)   // subscript of an object that lacks the key
    | TypeError               // subscript of something that is not an object
    | TransportFailure        // a failed remote call, passed on unchanged

  datatype Option<+T> = None | Some(value: T) {
    function GetOr(default: T): T {
      match this
      case Some(v) => v
      case None => default
    }
  }

  datatype Result<+T> = Ok(value: T) | Err(error: Error) {
    predicate IsFailure() {
      Err?
    }

    function PropagateFailure<U>(): Result<U>
      requires Err?
    {
      Err(error)
    }

    function Extract(): T
      requires Ok?
    {
      value
    }
  }

  /** The accumulator `acc` extended by a successful result; a failure discards it. */
  function AppendOk<T>(acc: seq<T>, r: Result<seq<T>>): Result<seq<T>> {
    match r
    case Ok(v) => Ok(acc + v)
    case Err(e) => Err(e)
  }

  lemma AppendOkEmpty<T>(r: Result<seq<T>>)
    ensures AppendOk([], r) == r
  {
    if r.Ok? {
      assert [] + r.value == r.value;
    }
  }

  predicate HasKey(v: Json, key: string) {
    v.JObj? && key in v.fields
  }

  /** Python's `v[key]` for a string key. */
  function Subscript(v: Json, key: string): (r: Result<Json>)
    ensures r.Ok? <==> HasKey(v, key)
    ensures r.Ok? ==> r.value == v.fields[key]
    ensures r.Err? ==> r.error == (if v.JObj? then KeyError(key) else TypeError)
  {
    match v
    case JObj(fields) => if key in fields then Ok(fields[key]) else Err(KeyError(key))
    case _ => Err(TypeError)
  }

  /** Python's chained subscript `v[path[0]][path[1]]...`, raising at the first failure. */
  function Lookup(v: Json, path: seq<string>): Result<Json>
    decreases |path|
  {
    if |path| == 0 then Ok(v)
    else
      var child :- Subscript(v, path[0]);
      Lookup(child, path[1..])
  }

  /** A two-step path subscripts twice, the first failure winning. */
  lemma LookupPair(v: Json, a: string, b: string)
    ensures Lookup(v, [a, b]) == (var x :- Subscript(v, a); Subscript(x, b))
  {
    assert [a, b][1..] == [b];
    assert [b][1..] == [];
    var first := Subscript(v, a);
    if first.Ok? {
      assert Lookup(v, [a, b]) == Lookup(first.value, [b]);
      var second := Subscript(first.value, b);
      if second.Ok? {
        assert Lookup(first.value, [b]) == Lookup(second.value, []);
      }
    }
  }

  /** `try: x = v[group][field] except: x = None`: a bare except turns every failure into None. */
  function TryLookup(v: Json, group: string, field: string): (r: Option<Json>)
    ensures r.Some? <==> HasKey(v, group) && HasKey(v.fields[group], field)
    ensures r.Some? ==> r.value == v.fields[group].fields[field]
  {
    LookupPair(v, group, field);
    match Lookup(v, [group, field])
    case Ok(x) => Some(x)
    case Err(_) => None
  }
}
