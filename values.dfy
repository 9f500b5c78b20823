/** The Python values that flow through the request-building code: query parameters,
    JSON bodies, decoded responses. */
module Values {
  import opened Wrappers

  /** A Python float, carried as the text Python prints for it. It is only passed along. */
  datatype Float = Float(text: string)

  /** `None`, the JSON scalars, lists and string-keyed dictionaries. */
  datatype Value =
    | Null
    | Bool(b: bool)
    | Int(i: int)
    | Num(f: Float)
    | Str(s: string)
    | List(items: seq<Value>)
    | Object(fields: map<string, Value>)

  /** Python truthiness, as tested by `if v:` and `not v`. */
  predicate Truthy(v: Value)
    ensures v == Null ==> !Truthy(v)
    ensures v.Str? ==> (Truthy(v) <==> |v.s| > 0)
    ensures v.List? ==> (Truthy(v) <==> |v.items| > 0)
    ensures v.Object? ==> (Truthy(v) <==> |v.fields| > 0)
  {
    match v
    case Null => false
    case Bool(b) => b
    case Int(i) => i != 0
    case Num(f) => f.text != "0.0" && f.text != "-0.0"
    case Str(s) => s != ""
    case List(items) => items != []
    case Object(fields) => fields != map[]
  }

  /** `type(v).__name__`. */
  function TypeName(v: Value): string {
    match v
    case Null => "NoneType"
    case Bool(_) => "bool"
    case Int(_) => "int"
    case Num(_) => "float"
    case Str(_) => "str"
    case List(_) => "list"
    case Object(_) => "dict"
  }

  /** `d.get(key)`: the stored value, or `None` when the key is absent. */
  function GetOrNone(d: map<string, Value>, key: string): (v: Value)
    ensures key !in d ==> v == Null
    ensures key in d ==> v == d[key]
  {
    if key in d then d[key] else Null
  }

  /** A list of strings, as a Python `List[str]` argument. */
  function StrList(xs: seq<string>): (v: Value)
    ensures v.List? && |v.items| == |xs|
    ensures forall i :: 0 <= i < |xs| ==> v.items[i] == Str(xs[i])
  {
    List(seq(|xs|, i requires 0 <= i < |xs| => Str(xs[i])))
  }

  // Optional arguments as the values the code stores: `None` stays `None`.

  function OfStr(o: Option<string>): Value { if o.Some? then Str(o.value) else Null }
  function OfInt(o: Option<int>): Value { if o.Some? then Int(o.value) else Null }
  function OfBool(o: Option<bool>): Value { if o.Some? then Bool(o.value) else Null }
  function OfFloat(o: Option<Float>): Value { if o.Some? then Num(o.value) else Null }
  function OfStrList(o: Option<seq<string>>): Value { if o.Some? then StrList(o.value) else Null }

  /** The key is present in `d` exactly when `v` is not `None`, and then maps to `v`. */
  predicate Mirrors(d: map<string, Value>, key: string, v: Value) {
    (key in d <==> v != Null) && (key in d ==> d[key] == v)
  }

  /** The entries of `d` whose value is not `None`: what a run of
      `if x is not None: payload[key] = x` statements leaves in a dictionary. */
  function Present(d: map<string, Value>): (r: map<string, Value>)
    ensures r.Keys <= d.Keys
    ensures forall k :: k in d ==> Mirrors(r, k, d[k])
  {
    map k | k in d && d[k] != Null :: d[k]
  }

  /** `if v is not None: d[key] = v`. */
  function PutIfSome(d: map<string, Value>, key: string, v: Value): map<string, Value> {
    if v == Null then d else d[key := v]
  }

  /** A dictionary without `None` values is its own `Present` part. */
  lemma PresentOfNoneFree(d: map<string, Value>)
    requires forall k :: k in d ==> d[k] != Null
    ensures Present(d) == d
  {
  }
}
