/** src/mealie_client.py: the older `MealieClient`, which builds its query and body inline
    and checks the status code itself. Each method takes the response the server would give
    and yields the request it sends and what it returns or raises; the ensures clauses tie
    each request to the newer client's. */
module LegacyClient {
  import opened Wrappers
  import opened Values
  import opened Text
  import opened Exceptions
  import opened Requests
  import opened ParamBuilders
  import Food
  import Recipe
  import ShoppingList

  /** The part of an `httpx` response the client reads. */
  datatype Response = Response(statusCode: int, body: Value, text: string)

  /** The older client's status check: `response.json()` on the one accepted status, and a
      bare `Exception("Error: <code> - <text>")` on any other. */
  function Accept(response: Response, expected: int): (r: Result<Value, Exception>)
    ensures r.Success? <==> response.statusCode == expected
    ensures r.Success? ==> r.value == response.body
    ensures r.Failure? ==> r.error == Error("Error: " + IntToString(response.statusCode) + " - " + response.text)
  {
    if response.statusCode == expected then Success(response.body)
    else Failure(Error("Error: " + IntToString(response.statusCode) + " - " + response.text))
  }

  /** The status code can be read back from the error text, whatever the response text:
      it is the run of digits (and minus sign) right after "Error: ". */
  lemma AcceptErrorNamesStatus(response: Response, expected: int)
    requires response.statusCode != expected
    ensures var m := Message(Accept(response, expected).error);
            |m| >= 7 && m[..7] == "Error: " && ParseInt(CodePrefix(m[7..])) == Some(response.statusCode)
  {
    var m := Message(Accept(response, expected).error);
    var c := IntToString(response.statusCode);
    assert m == "Error: " + c + " - " + response.text;
    assert m[7..] == c + " " + ("- " + response.text);
    IntToStringCodeChars(response.statusCode);
    CodePrefixBeforeSpace(c, "- " + response.text);
    IntToStringRoundTrip(response.statusCode);
  }

  /** `if value is not None: params[key] = value`. */
  method SetIfGiven(params: map<string, Value>, key: string, value: Value) returns (r: map<string, Value>)
    ensures r == PutIfSome(params, key, value)
  {
    r := params;
    if value != Null {
      r := r[key := value];
    }
  }

  /** The query both clients share for foods and recipes, as the older client fills it. */
  function OrderingParams(search: Option<string>, orderBy: Option<string>, orderByNullPosition: Option<string>,
                          orderDirection: Option<string>): map<string, Value>
  {
    PutIfSome(PutIfSome(PutIfSome(PutIfSome(map[], "search", OfStr(search)), "orderBy", OfStr(orderBy)),
                        "orderByNullPosition", OfStr(orderByNullPosition)), "orderDirection", OfStr(orderDirection))
  }

  function PagingParams(p: map<string, Value>, queryFilter: Option<string>, paginationSeed: Option<string>,
                        page: Option<int>, perPage: Option<int>): map<string, Value>
  {
    PutIfSome(PutIfSome(PutIfSome(PutIfSome(p, "queryFilter", OfStr(queryFilter)), "paginationSeed", OfStr(paginationSeed)),
                        "page", OfInt(page)), "perPage", OfInt(perPage))
  }

  function OrderingQuery(search: Option<string>, orderBy: Option<string>, orderByNullPosition: Option<string>,
                         orderDirection: Option<string>): map<string, Value>
  {
    map["search" := OfStr(search), "orderBy" := OfStr(orderBy), "orderByNullPosition" := OfStr(orderByNullPosition),
        "orderDirection" := OfStr(orderDirection)]
  }

  lemma OrderingAgrees(search: Option<string>, orderBy: Option<string>, orderByNullPosition: Option<string>,
                       orderDirection: Option<string>)
    ensures var q := OrderingQuery(search, orderBy, orderByNullPosition, orderDirection);
            q.Keys == {"search", "orderBy", "orderByNullPosition", "orderDirection"} &&
            AllJoinable(q) && BuildParams(q) == OrderingParams(search, orderBy, orderByNullPosition, orderDirection)
  {
    var q0: map<string, Value> := map[];
    BuildParamsSteps4(q0, "search", OfStr(search), "orderBy", OfStr(orderBy),
                      "orderByNullPosition", OfStr(orderByNullPosition), "orderDirection", OfStr(orderDirection));
  }

  /** The older client's inline query for foods is what the newer `ParamBuilder` builds from
      the same arguments. */
  lemma FoodsQueryAgrees(search: Option<string>, orderBy: Option<string>, orderByNullPosition: Option<string>,
                         orderDirection: Option<string>, queryFilter: Option<string>, paginationSeed: Option<string>,
                         page: Option<int>, perPage: Option<int>)
    ensures var q := Food.FoodsQuery(search, orderBy, orderByNullPosition, orderDirection, queryFilter, paginationSeed, page, perPage);
            AllJoinable(q) &&
            BuildParams(q) == PagingParams(OrderingParams(search, orderBy, orderByNullPosition, orderDirection),
                                           queryFilter, paginationSeed, page, perPage)
  {
    var q4 := OrderingQuery(search, orderBy, orderByNullPosition, orderDirection);
    OrderingAgrees(search, orderBy, orderByNullPosition, orderDirection);
    BuildParamsSteps4(q4, "queryFilter", OfStr(queryFilter), "paginationSeed", OfStr(paginationSeed),
                      "page", OfInt(page), "perPage", OfInt(perPage));
  }

  method GetFoods(response: Response, search: Option<string> := None, orderBy: Option<string> := None,
                  orderByNullPosition: Option<string> := None, orderDirection: Option<string> := Some("desc"),
                  queryFilter: Option<string> := None, paginationSeed: Option<string> := None,
                  page: Option<int> := None, perPage: Option<int> := None)
    returns (sent: Request, r: Result<Value, Exception>)
    ensures sent == Food.GetFoods(search, orderBy, orderByNullPosition, orderDirection, queryFilter, paginationSeed,
                                  page, perPage)
    ensures r == Accept(response, 200)
  {
    var params: map<string, Value> := map[];
    params := SetIfGiven(params, "search", OfStr(search));
    params := SetIfGiven(params, "orderBy", OfStr(orderBy));
    params := SetIfGiven(params, "orderByNullPosition", OfStr(orderByNullPosition));
    params := SetIfGiven(params, "orderDirection", OfStr(orderDirection));
    params := SetIfGiven(params, "queryFilter", OfStr(queryFilter));
    params := SetIfGiven(params, "paginationSeed", OfStr(paginationSeed));
    params := SetIfGiven(params, "page", OfInt(page));
    params := SetIfGiven(params, "perPage", OfInt(perPage));
    FoodsQueryAgrees(search, orderBy, orderByNullPosition, orderDirection, queryFilter, paginationSeed, page, perPage);
    sent := Request(GET, Food.FoodsPath, Some(params), None);
    r := Accept(response, 200);
  }

  /** The older client's inline query for recipes is what the newer `ParamBuilder` builds
      from the same arguments, the slug lists joined by "," in both. */
  lemma RecipesQueryAgrees(search: Option<string>, orderBy: Option<string>, orderByNullPosition: Option<string>,
                           orderDirection: Option<string>, queryFilter: Option<string>, paginationSeed: Option<string>,
                           page: Option<int>, perPage: Option<int>, categories: Option<seq<string>>,
                           tags: Option<seq<string>>, tools: Option<seq<string>>)
    ensures var q := Recipe.RecipesQuery(search, orderBy, orderByNullPosition, orderDirection, queryFilter,
                                         paginationSeed, page, perPage, categories, tags, tools);
            AllJoinable(q) &&
            BuildParams(q) ==
              PutIfSome(PutIfSome(PutIfSome(
                PagingParams(OrderingParams(search, orderBy, orderByNullPosition, orderDirection),
                             queryFilter, paginationSeed, page, perPage),
                "categories", JoinedList(categories)), "tags", JoinedList(tags)), "tools", JoinedList(tools))
  {
    var q8 := Food.FoodsQuery(search, orderBy, orderByNullPosition, orderDirection, queryFilter, paginationSeed, page, perPage);
    FoodsQueryAgrees(search, orderBy, orderByNullPosition, orderDirection, queryFilter, paginationSeed, page, perPage);
    RenderedStrList(categories);
    RenderedStrList(tags);
    RenderedStrList(tools);
    BuildParamsStep(q8, "categories", OfStrList(categories));
    var q9 := q8["categories" := OfStrList(categories)];
    BuildParamsStep(q9, "tags", OfStrList(tags));
    var q10 := q9["tags" := OfStrList(tags)];
    BuildParamsStep(q10, "tools", OfStrList(tools));
  }

  /** `",".join(xs)` when the list is given. */
  function JoinedList(o: Option<seq<string>>): Value {
    if o.Some? then Str(Join(o.value, ",")) else Null
  }

  method GetRecipes(response: Response, search: Option<string> := None, orderBy: Option<string> := None,
                    orderByNullPosition: Option<string> := None, orderDirection: Option<string> := Some("desc"),
                    queryFilter: Option<string> := None, paginationSeed: Option<string> := None,
                    page: Option<int> := None, perPage: Option<int> := None,
                    categories: Option<seq<string>> := None, tags: Option<seq<string>> := None,
                    tools: Option<seq<string>> := None)
    returns (sent: Request, r: Result<Value, Exception>)
    ensures sent == Recipe.GetRecipes(search, orderBy, orderByNullPosition, orderDirection, queryFilter, paginationSeed,
                                      page, perPage, categories, tags, tools)
    ensures r == Accept(response, 200)
  {
    var params: map<string, Value> := map[];
    params := SetIfGiven(params, "search", OfStr(search));
    params := SetIfGiven(params, "orderBy", OfStr(orderBy));
    params := SetIfGiven(params, "orderByNullPosition", OfStr(orderByNullPosition));
    params := SetIfGiven(params, "orderDirection", OfStr(orderDirection));
    params := SetIfGiven(params, "queryFilter", OfStr(queryFilter));
    params := SetIfGiven(params, "paginationSeed", OfStr(paginationSeed));
    params := SetIfGiven(params, "page", OfInt(page));
    params := SetIfGiven(params, "perPage", OfInt(perPage));
    if categories.Some? {
      params := params["categories" := Str(Join(categories.value, ","))];
    }
    if tags.Some? {
      params := params["tags" := Str(Join(tags.value, ","))];
    }
    if tools.Some? {
      params := params["tools" := Str(Join(tools.value, ","))];
    }
    RecipesQueryAgrees(search, orderBy, orderByNullPosition, orderDirection, queryFilter, paginationSeed, page, perPage,
                       categories, tags, tools);
    sent := Request(GET, Recipe.RecipesPath, Some(params), None);
    r := Accept(response, 200);
  }

  /** `get_recipe(slug)` without the newer client's empty-slug check: it sends the same
      request for any non-empty slug, and a request for "/api/recipes/" where the newer
      client raises. */
  method GetRecipe(response: Response, slug: string) returns (sent: Request, r: Result<Value, Exception>)
    ensures slug != "" ==> Recipe.GetRecipe(slug) == Success(sent)
    ensures slug == "" ==> Recipe.GetRecipe(slug).Failure? && sent == Bare(GET, Recipe.RecipesPath + "/")
    ensures r == Accept(response, 200)
  {
    sent := Bare(GET, Recipe.RecipesPath + "/" + slug);
    r := Accept(response, 200);
  }

  /** `create_shopping_list` without the empty-name check, accepting only 201: for a non-empty
      name it sends what the newer client sends. */
  method CreateShoppingList(response: Response, name: string, description: Option<string> := None)
    returns (sent: Request, r: Result<Value, Exception>)
    ensures sent == Request(POST, ShoppingList.ListsPath, None, Some(Object(ShoppingList.ListPayload(name, description))))
    ensures r == Accept(response, 201)
  {
    var payload := map["name" := Str(name)];
    if description.Some? {
      payload := payload["description" := Str(description.value)];
    }
    sent := Request(POST, ShoppingList.ListsPath, None, Some(Object(payload)));
    r := Accept(response, 201);
  }

  /** `update_shopping_list` without the newer client's checks: a call with neither a name
      nor a description still sends a body holding only the id. */
  method UpdateShoppingList(response: Response, listId: string, name: Option<string> := None,
                            description: Option<string> := None)
    returns (sent: Request, r: Result<Value, Exception>)
    ensures sent == Request(PUT, ShoppingList.ListsPath + "/" + listId, None,
                            Some(Object(ShoppingList.ListUpdatePayload(listId, name, description))))
    ensures name.None? && description.None? ==> sent.body == Some(Object(map["id" := Str(listId)]))
    ensures r == Accept(response, 200)
  {
    var payload := map["id" := Str(listId)];
    if name.Some? {
      payload := payload["name" := Str(name.value)];
    }
    if description.Some? {
      payload := payload["description" := Str(description.value)];
    }
    sent := Request(PUT, ShoppingList.ListsPath + "/" + listId, None, Some(Object(payload)));
    r := Accept(response, 200);
  }

  method GetShoppingLists(response: Response, page: Option<int> := None, perPage: Option<int> := None,
                          paginationSeed: Option<string> := None)
    returns (sent: Request, r: Result<Value, Exception>)
    ensures sent == ShoppingList.GetShoppingLists(page, perPage, paginationSeed)
    ensures r == Accept(response, 200)
  {
    var params: map<string, Value> := map[];
    params := SetIfGiven(params, "page", OfInt(page));
    params := SetIfGiven(params, "perPage", OfInt(perPage));
    params := SetIfGiven(params, "paginationSeed", OfStr(paginationSeed));
    ghost var q: map<string, Value> := map[];
    BuildParamsStep(q, "page", OfInt(page));
    BuildParamsStep(q["page" := OfInt(page)], "perPage", OfInt(perPage));
    BuildParamsStep(q["page" := OfInt(page)]["perPage" := OfInt(perPage)], "paginationSeed", OfStr(paginationSeed));
    assert ShoppingList.ListsQuery(page, perPage, paginationSeed) ==
           q["page" := OfInt(page)]["perPage" := OfInt(perPage)]["paginationSeed" := OfStr(paginationSeed)];
    sent := Request(GET, ShoppingList.ListsPath, Some(params), None);
    r := Accept(response, 200);
  }

  /** `get_shopping_list(list_id)` without the empty-id check. */
  method GetShoppingList(response: Response, listId: string) returns (sent: Request, r: Result<Value, Exception>)
    ensures listId != "" ==> ShoppingList.GetShoppingList(listId) == Success(sent)
    ensures listId == "" ==> ShoppingList.GetShoppingList(listId).Failure? &&
                             sent == Bare(GET, ShoppingList.ListsPath + "/")
    ensures r == Accept(response, 200)
  {
    sent := Bare(GET, ShoppingList.ListsPath + "/" + listId);
    r := Accept(response, 200);
  }
}
