/** src/mealie/food.py: `FoodMixin`, the food listing endpoint. */
module Food {
  import opened Wrappers
  import opened Values
  import opened Requests
  import opened ParamBuilders

  const FoodsPath := "/api/foods"

  /** The `param_dict` literal of `get_foods`. */
  function FoodsQuery(search: Option<string>, orderBy: Option<string>, orderByNullPosition: Option<string>,
                      orderDirection: Option<string>, queryFilter: Option<string>, paginationSeed: Option<string>,
                      page: Option<int>, perPage: Option<int>): map<string, Value>
  {
    map["search" := OfStr(search), "orderBy" := OfStr(orderBy), "orderByNullPosition" := OfStr(orderByNullPosition),
        "orderDirection" := OfStr(orderDirection), "queryFilter" := OfStr(queryFilter),
        "paginationSeed" := OfStr(paginationSeed), "page" := OfInt(page), "perPage" := OfInt(perPage)]
  }

  /** `get_foods(...)`: a GET of /api/foods whose query holds exactly the arguments that are
      not `None`, unchanged. The order direction defaults to "desc". */
  function GetFoods(search: Option<string> := None, orderBy: Option<string> := None,
                    orderByNullPosition: Option<string> := None, orderDirection: Option<string> := Some("desc"),
                    queryFilter: Option<string> := None, paginationSeed: Option<string> := None,
                    page: Option<int> := None, perPage: Option<int> := None): (r: Request)
    ensures var q := FoodsQuery(search, orderBy, orderByNullPosition, orderDirection, queryFilter, paginationSeed,
                                page, perPage);
            r.verb == GET && r.path == FoodsPath && r.body.None? && r.params.Some? &&
            r.params.value.Keys <= q.Keys &&
            forall k :: k in q ==> Mirrors(r.params.value, k, q[k])
  {
    var q := FoodsQuery(search, orderBy, orderByNullPosition, orderDirection, queryFilter, paginationSeed, page, perPage);
    BuildParamsOfScalars(q);
    Request(GET, FoodsPath, Some(BuildParams(q)), None)
  }

  /** Called with no arguments, `get_foods` sends only the default order direction. */
  lemma GetFoodsDefaultQuery()
    ensures GetFoods().params == Some(map["orderDirection" := Str("desc")])
  {
    var p := GetFoods().params.value;
    var q := FoodsQuery(None, None, None, Some("desc"), None, None, None, None);
    assert forall k :: k in p ==> k in q && q[k] != Null;
    assert "orderDirection" in q && q["orderDirection"] == Str("desc");
    assert forall k :: k in q && k != "orderDirection" ==> q[k] == Null;
    assert "orderDirection" in p && p["orderDirection"] == Str("desc");
    assert p.Keys == {"orderDirection"};
    assert p == map["orderDirection" := Str("desc")];
  }

  /** An explicit `None` order direction drops the key instead of sending the default. */
  lemma GetFoodsWithoutDirection()
    ensures GetFoods(orderDirection := None).params == Some(map[])
  {
    var p := GetFoods(orderDirection := None).params.value;
    var q := FoodsQuery(None, None, None, None, None, None, None, None);
    assert forall k :: k in q ==> q[k] == Null;
    assert forall k :: k !in p;
  }
}
