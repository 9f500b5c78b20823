/** src/mealie/recipe.py: `RecipeMixin`, the recipe endpoints. */
module Recipe {
  import opened Wrappers
  import opened Values
  import opened Text
  import opened Exceptions
  import opened Requests
  import opened ParamBuilders

  const RecipesPath := "/api/recipes"

  const EmptySlug := ValueError("Recipe slug cannot be empty")
  const EmptyData := ValueError("Recipe data cannot be empty")

  /** The `param_dict` literal of `get_recipes`. */
  function RecipesQuery(search: Option<string>, orderBy: Option<string>, orderByNullPosition: Option<string>,
                        orderDirection: Option<string>, queryFilter: Option<string>, paginationSeed: Option<string>,
                        page: Option<int>, perPage: Option<int>, categories: Option<seq<string>>,
                        tags: Option<seq<string>>, tools: Option<seq<string>>): (q: map<string, Value>)
    ensures forall k :: k in q ==> Joinable(q[k])
  {
    map["search" := OfStr(search), "orderBy" := OfStr(orderBy), "orderByNullPosition" := OfStr(orderByNullPosition),
        "orderDirection" := OfStr(orderDirection), "queryFilter" := OfStr(queryFilter),
        "paginationSeed" := OfStr(paginationSeed), "page" := OfInt(page), "perPage" := OfInt(perPage),
        "categories" := OfStrList(categories), "tags" := OfStrList(tags), "tools" := OfStrList(tools)]
  }

  /** `get_recipes(...)`: a GET of /api/recipes whose query holds every argument that is not
      `None`, the slug lists comma-joined. Building the query cannot fail, since every list
      argument holds only strings. The order direction defaults to "desc". */
  function GetRecipes(search: Option<string> := None, orderBy: Option<string> := None,
                      orderByNullPosition: Option<string> := None, orderDirection: Option<string> := Some("desc"),
                      queryFilter: Option<string> := None, paginationSeed: Option<string> := None,
                      page: Option<int> := None, perPage: Option<int> := None,
                      categories: Option<seq<string>> := None, tags: Option<seq<string>> := None,
                      tools: Option<seq<string>> := None): (r: Request)
    ensures var q := RecipesQuery(search, orderBy, orderByNullPosition, orderDirection, queryFilter, paginationSeed,
                                  page, perPage, categories, tags, tools);
            AllJoinable(q) && r.verb == GET && r.path == RecipesPath && r.body.None? && r.params.Some? &&
            r.params.value.Keys <= q.Keys &&
            forall k :: k in q ==> Mirrors(r.params.value, k, Rendered(q[k]))
  {
    var q := RecipesQuery(search, orderBy, orderByNullPosition, orderDirection, queryFilter, paginationSeed,
                          page, perPage, categories, tags, tools);
    Request(GET, RecipesPath, Some(BuildParams(q)), None)
  }

  /** Called with no arguments, `get_recipes` sends only the default order direction. */
  lemma GetRecipesDefaultQuery()
    ensures GetRecipes().params == Some(map["orderDirection" := Str("desc")])
  {
    var p := GetRecipes().params.value;
    var q := RecipesQuery(None, None, None, Some("desc"), None, None, None, None, None, None, None);
    assert forall k :: k in p ==> k in q && q[k] != Null;
    assert "orderDirection" in q && q["orderDirection"] == Str("desc");
    assert forall k :: k in q && k != "orderDirection" ==> q[k] == Null;
    assert "orderDirection" in p && p["orderDirection"] == Str("desc");
    assert p.Keys == {"orderDirection"};
    assert p == map["orderDirection" := Str("desc")];
  }

  /** A category filter is sent as one comma-joined string. */
  lemma GetRecipesJoinsCategories(slugs: seq<string>)
    ensures var p := GetRecipes(categories := Some(slugs)).params.value;
            "categories" in p && p["categories"] == Str(Join(slugs, ","))
  {
    var q := RecipesQuery(None, None, None, Some("desc"), None, None, None, None, Some(slugs), None, None);
    assert "categories" in q && q["categories"] == StrList(slugs);
    BuildJoinsStringLists(q, "categories", slugs);
  }

  /** The category slugs can be read back from the query when none holds a comma. */
  lemma GetRecipesCategoriesRecoverable(slugs: seq<string>)
    requires |slugs| > 0 && forall i :: 0 <= i < |slugs| ==> ',' !in slugs[i]
    ensures Split(GetRecipes(categories := Some(slugs)).params.value["categories"].s, ',') == slugs
  {
    GetRecipesJoinsCategories(slugs);
    SplitJoinRoundTrip(slugs, ',');
  }

  /** `get_recipe(slug)`. */
  function GetRecipe(slug: string): (r: Result<Request, Exception>)
    ensures slug == "" <==> r == Failure(EmptySlug)
    ensures slug != "" ==> r == Success(Bare(GET, RecipesPath + "/" + slug))
  {
    if slug == "" then Failure(EmptySlug) else Success(Bare(GET, RecipesPath + "/" + slug))
  }

  /** `update_recipe(slug, recipe_data)`: the slug is checked first; the data is sent as given. */
  function UpdateRecipe(slug: string, recipeData: Value): (r: Result<Request, Exception>)
    ensures slug == "" ==> r == Failure(EmptySlug)
    ensures slug != "" && !Truthy(recipeData) ==> r == Failure(EmptyData)
    ensures r.Success? <==> slug != "" && Truthy(recipeData)
    ensures r.Success? ==> r.value == Request(PUT, RecipesPath + "/" + slug, None, Some(recipeData))
  {
    if slug == "" then Failure(EmptySlug)
    else if !Truthy(recipeData) then Failure(EmptyData)
    else Success(Request(PUT, RecipesPath + "/" + slug, None, Some(recipeData)))
  }
}
