/** src/param_builder.py: the query-parameter builder. */
module ParamBuilders {
  import opened Wrappers
  import opened Values
  import opened Text
  import opened Exceptions

  /** The position of the first item that is not a `str`, if any. */
  function FirstNonStr(items: seq<Value>): (r: Option<nat>)
    ensures r.None? <==> forall i :: 0 <= i < |items| ==> items[i].Str?
    ensures r.Some? ==> r.value < |items| && !items[r.value].Str?
    ensures r.Some? ==> forall i :: 0 <= i < r.value ==> items[i].Str?
  {
    if items == [] then None
    else if !items[0].Str? then Some(0)
    else match FirstNonStr(items[1..])
      case None => None
      case Some(k) => Some(k + 1)
  }

  function Texts(items: seq<Value>): (r: seq<string>)
    requires forall i :: 0 <= i < |items| ==> items[i].Str?
    ensures |r| == |items| && forall i :: 0 <= i < |items| ==> items[i] == Str(r[i])
  {
    seq(|items|, i requires 0 <= i < |items| => items[i].s)
  }

  /** `sep.join(items)`: the first item that is not a `str` raises TypeError. */
  function JoinItems(items: seq<Value>, sep: string): (r: Result<string, Exception>)
    ensures r.Success? <==> forall i :: 0 <= i < |items| ==> items[i].Str?
    ensures r.Failure? ==> r.error.TypeError?
  {
    match FirstNonStr(items)
    case Some(k) =>
      Failure(TypeError("sequence item " + IntToString(k) + ": expected str instance, " + TypeName(items[k]) + " found"))
    case None => Success(Join(Texts(items), sep))
  }

  /** A value `build` can emit: anything but a list holding a non-string. */
  predicate Joinable(v: Value) {
    v.List? ==> forall i :: 0 <= i < |v.items| ==> v.items[i].Str?
  }

  predicate AllJoinable(d: map<string, Value>) {
    forall k :: k in d ==> Joinable(d[k])
  }

  /** What `build` emits for one value: a list becomes its items joined by ",", anything
      else is itself (so `None` stays `None`, which `build` leaves out). */
  function Rendered(v: Value): (r: Value)
    requires Joinable(v)
    ensures v.List? ==> r == Str(Join(Texts(v.items), ","))
    ensures !v.List? ==> r == v
  {
    if v.List? then Str(Join(Texts(v.items), ",")) else v
  }

  /** The dictionary `ParamBuilder(d).build()` returns when it returns. */
  function BuildParams(d: map<string, Value>): (r: map<string, Value>)
    requires AllJoinable(d)
  {
    map k | k in d && d[k] != Null :: Rendered(d[k])
  }

  /** `build` keeps exactly the keys whose value is not `None`, each with its rendered value. */
  lemma BuildParamsMirrors(d: map<string, Value>)
    requires AllJoinable(d)
    ensures BuildParams(d).Keys <= d.Keys
    ensures forall k :: k in d ==> Mirrors(BuildParams(d), k, Rendered(d[k]))
  {
  }

  /** A list of strings is sent comma-joined; the empty list is sent as "" and so is kept. */
  lemma BuildJoinsStringLists(d: map<string, Value>, k: string, xs: seq<string>)
    requires AllJoinable(d) && k in d && d[k] == StrList(xs)
    ensures k in BuildParams(d) && BuildParams(d)[k] == Str(Join(xs, ","))
    ensures xs == [] ==> BuildParams(d)[k] == Str("")
  {
    assert Texts(StrList(xs).items) == xs;
  }

  /** Without list values, `build` only drops the `None` entries. */
  lemma BuildParamsOfScalars(d: map<string, Value>)
    requires forall k :: k in d ==> !d[k].List?
    ensures AllJoinable(d) && BuildParams(d) == Present(d)
  {
  }

  /** An optional list of strings is rendered as its comma-joined text. */
  lemma RenderedStrList(o: Option<seq<string>>)
    ensures Joinable(OfStrList(o))
    ensures Rendered(OfStrList(o)) == (if o.Some? then Str(Join(o.value, ",")) else Null)
  {
    if o.Some? {
      assert Texts(StrList(o.value).items) == o.value;
    }
  }

  /** Adding one fresh entry to the dictionary adds its rendered value to what `build`
      returns, unless the value is `None`. */
  lemma BuildParamsStep(m: map<string, Value>, k: string, v: Value)
    requires AllJoinable(m) && Joinable(v) && k !in m
    ensures AllJoinable(m[k := v]) && BuildParams(m[k := v]) == PutIfSome(BuildParams(m), k, Rendered(v))
  {
    assert Rendered(v) == Null <==> v == Null;
  }

  /** Four fresh entries added in turn, as `BuildParamsStep` four times. */
  lemma BuildParamsSteps4(m: map<string, Value>, k1: string, v1: Value, k2: string, v2: Value,
                          k3: string, v3: Value, k4: string, v4: Value)
    requires AllJoinable(m) && Joinable(v1) && Joinable(v2) && Joinable(v3) && Joinable(v4)
    requires k1 !in m && k2 !in m && k3 !in m && k4 !in m
    requires k1 != k2 && k1 != k3 && k1 != k4 && k2 != k3 && k2 != k4 && k3 != k4
    ensures AllJoinable(m[k1 := v1][k2 := v2][k3 := v3][k4 := v4])
    ensures BuildParams(m[k1 := v1][k2 := v2][k3 := v3][k4 := v4]) ==
            PutIfSome(PutIfSome(PutIfSome(PutIfSome(BuildParams(m), k1, Rendered(v1)), k2, Rendered(v2)),
                                k3, Rendered(v3)), k4, Rendered(v4))
  {
    BuildParamsStep(m, k1, v1);
    BuildParamsStep(m[k1 := v1], k2, v2);
    BuildParamsStep(m[k1 := v1][k2 := v2], k3, v3);
    BuildParamsStep(m[k1 := v1][k2 := v2][k3 := v3], k4, v4);
  }

  /** A key whose value is `None` is left out, whatever else the dictionary holds. */
  lemma BuildOmitsNone(d: map<string, Value>, k: string)
    requires AllJoinable(d)
    ensures AllJoinable(d[k := Null]) && k !in BuildParams(d[k := Null])
    ensures forall j :: j in d && j != k ==> (j in BuildParams(d) <==> j in BuildParams(d[k := Null]))
  {
  }

  const NotIterable := TypeError("argument of type 'NoneType' is not iterable")
  const NoItems := AttributeError("'NoneType' object has no attribute 'items'")

  /** The error `add` raises for a key already present. */
  function DuplicateKey(key: string): Exception {
    ValueError("Key '" + key + "' already exists in the parameter dictionary.")
  }

  class ParamBuilder {
    /** `self.param_dict`: `None` when the builder is made without a dictionary. */
    var paramDict: Option<map<string, Value>>

    constructor (paramDict: Option<map<string, Value>> := None)
      ensures this.paramDict == paramDict
    {
      this.paramDict := paramDict;
    }

    /** `add(key, value)`: insert a new key (its value may be `None`); an existing key is
        refused and nothing changes. */
    method Add(key: string, value: Value) returns (r: Outcome<Exception>)
      modifies this
      ensures old(paramDict).None? ==> r == Fail(NotIterable) && paramDict == old(paramDict)
      ensures old(paramDict).Some? && key in old(paramDict).value ==>
                r == Fail(DuplicateKey(key)) && paramDict == old(paramDict)
      ensures old(paramDict).Some? && key !in old(paramDict).value ==>
                r == Pass && paramDict == Some(old(paramDict).value[key := value])
    {
      if paramDict.None? {
        return Fail(NotIterable);
      }
      if key in paramDict.value {
        return Fail(DuplicateKey(key));
      }
      paramDict := Some(paramDict.value[key := value]);
      r := Pass;
    }

    /** `build()`: a fresh dictionary with every non-`None` value, lists comma-joined. */
    method Build() returns (r: Result<map<string, Value>, Exception>)
      ensures paramDict.None? ==> r == Failure(NoItems)
      ensures paramDict.Some? ==> (r.Success? <==> AllJoinable(paramDict.value))
      ensures r.Success? ==> r.value == BuildParams(paramDict.value)
      ensures r.Success? ==> forall k :: k in paramDict.value ==>
                Mirrors(r.value, k, Rendered(paramDict.value[k]))
      ensures r.Failure? && paramDict.Some? ==>
                exists k :: k in paramDict.value && !Joinable(paramDict.value[k]) &&
                  r == Failure(JoinItems(paramDict.value[k].items, ",").error)
    {
      if paramDict.None? {
        return Failure(NoItems);
      }
      var d := paramDict.value;
      var output: map<string, Value> := map[];
      var todo := d.Keys;
      while todo != {}
        invariant todo <= d.Keys
        invariant forall k :: k in d && k !in todo ==> Joinable(d[k])
        invariant output.Keys == set k | k in d && k !in todo && d[k] != Null
        invariant forall k :: k in output ==> output[k] == Rendered(d[k])
        decreases todo
      {
        var k :| k in todo;
        var v := d[k];
        if v.List? {
          var joined := JoinItems(v.items, ",");
          if joined.Failure? {
            return Failure(joined.error);
          }
          output := output[k := Str(joined.value)];
        } else if v != Null {
          output := output[k := v];
        }
        todo := todo - {k};
      }
      r := Success(output);
    }
  }
}
