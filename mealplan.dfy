/** src/mealie/mealplan.py: `MealplanMixin`, the meal-plan and meal-plan-rule endpoints. */
module Mealplan {
  import opened Wrappers
  import opened Values
  import opened Text
  import opened Exceptions
  import opened Requests
  import opened ParamBuilders

  const MealplansPath := "/api/households/mealplans"
  const RulesPath := "/api/households/mealplans/rules"

  /** The date-range and paging filters, under the snake_case keys the code uses, each
      present exactly when given. */
  function MealplanFilters(startDate: Option<string>, endDate: Option<string>, page: Option<int>, perPage: Option<int>)
    : map<string, Value>
  {
    var f := PutIfSome(map[], "start_date", OfStr(startDate));
    var f := PutIfSome(f, "end_date", OfStr(endDate));
    var f := PutIfSome(f, "page", OfInt(page));
    PutIfSome(f, "per_page", OfInt(perPage))
  }

  function RuleFilters(page: Option<int>, perPage: Option<int>): map<string, Value> {
    PutIfSome(PutIfSome(map[], "page", OfInt(page)), "per_page", OfInt(perPage))
  }

  /** `_handle_request("GET", path, params=built)`, reached only when `build` returned. */
  function Send(path: string, built: Result<map<string, Value>, Exception>): (r: Result<Request, Exception>)
    ensures built.Failure? ==> r == Failure(built.error)
    ensures built.Success? ==> r == Success(Request(GET, path, Some(built.value), None))
  {
    match built
    case Failure(e) => Failure(e)
    case Success(p) => Success(Request(GET, path, Some(p), None))
  }

  /** `if value is not None: params.add(key, value)` on a dictionary without `key`: the
      `add` cannot raise. */
  method AddIfGiven(params: ParamBuilder, key: string, value: Value)
    requires params.paramDict.Some? && key !in params.paramDict.value
    modifies params
    ensures params.paramDict == Some(PutIfSome(old(params.paramDict.value), key, value))
  {
    if value != Null {
      var added := params.Add(key, value);
      assert added == Pass;
    }
  }

  /** A dictionary of strings and integers is built unchanged. */
  lemma BuildsItself(d: map<string, Value>)
    requires forall k :: k in d ==> d[k].Str? || d[k].Int?
    ensures AllJoinable(d) && BuildParams(d) == d
  {
    BuildParamsOfScalars(d);
    PresentOfNoneFree(d);
  }

  /** `get_all_mealplans` as written: the builder is made without a dictionary, so the first
      `add` raises TypeError, and with no filter at all `build` raises AttributeError. No
      request is ever made. */
  method GetAllMealplansAsWritten(startDate: Option<string> := None, endDate: Option<string> := None,
                                  page: Option<int> := None, perPage: Option<int> := None)
    returns (r: Result<Request, Exception>)
    ensures startDate.Some? || endDate.Some? || page.Some? || perPage.Some? ==> r == Failure(NotIterable)
    ensures startDate.None? && endDate.None? && page.None? && perPage.None? ==> r == Failure(NoItems)
  {
    var params := new ParamBuilder();
    var added: Outcome<Exception>;
    if startDate.Some? {
      added := params.Add("start_date", Str(startDate.value));
      if added.Fail? { return Failure(added.error); }
    }
    if endDate.Some? {
      added := params.Add("end_date", Str(endDate.value));
      if added.Fail? { return Failure(added.error); }
    }
    if page.Some? {
      added := params.Add("page", Int(page.value));
      if added.Fail? { return Failure(added.error); }
    }
    if perPage.Some? {
      added := params.Add("per_page", Int(perPage.value));
      if added.Fail? { return Failure(added.error); }
    }
    var built := params.Build();
    r := Send(MealplansPath, built);
  }

  /** `get_all_mealplans` with the builder started on an empty dictionary: every `add` takes
      a fresh key, so it never raises, and the request carries exactly the filters given. */
  method GetAllMealplans(startDate: Option<string> := None, endDate: Option<string> := None,
                         page: Option<int> := None, perPage: Option<int> := None)
    returns (r: Result<Request, Exception>)
    ensures r == Success(Request(GET, MealplansPath, Some(MealplanFilters(startDate, endDate, page, perPage)), None))
  {
    var params := new ParamBuilder(Some(map[]));
    AddIfGiven(params, "start_date", OfStr(startDate));
    AddIfGiven(params, "end_date", OfStr(endDate));
    AddIfGiven(params, "page", OfInt(page));
    AddIfGiven(params, "per_page", OfInt(perPage));
    assert params.paramDict == Some(MealplanFilters(startDate, endDate, page, perPage));
    BuildsItself(params.paramDict.value);
    var built := params.Build();
    r := Send(MealplansPath, built);
  }

  /** The filters sent are exactly the arguments that are not `None`. */
  lemma MealplanFiltersMirror(startDate: Option<string>, endDate: Option<string>, page: Option<int>, perPage: Option<int>)
    ensures var f := MealplanFilters(startDate, endDate, page, perPage);
            f.Keys <= {"start_date", "end_date", "page", "per_page"} &&
            Mirrors(f, "start_date", OfStr(startDate)) && Mirrors(f, "end_date", OfStr(endDate)) &&
            Mirrors(f, "page", OfInt(page)) && Mirrors(f, "per_page", OfInt(perPage))
  {
  }

  /** `get_mealplan_rules` as written: the same defect as `get_all_mealplans`. */
  method GetMealplanRulesAsWritten(page: Option<int> := None, perPage: Option<int> := None)
    returns (r: Result<Request, Exception>)
    ensures page.Some? || perPage.Some? ==> r == Failure(NotIterable)
    ensures page.None? && perPage.None? ==> r == Failure(NoItems)
  {
    var params := new ParamBuilder();
    var added: Outcome<Exception>;
    if page.Some? {
      added := params.Add("page", Int(page.value));
      if added.Fail? { return Failure(added.error); }
    }
    if perPage.Some? {
      added := params.Add("per_page", Int(perPage.value));
      if added.Fail? { return Failure(added.error); }
    }
    var built := params.Build();
    r := Send(RulesPath, built);
  }

  /** `get_mealplan_rules` with the builder started on an empty dictionary. */
  method GetMealplanRules(page: Option<int> := None, perPage: Option<int> := None)
    returns (r: Result<Request, Exception>)
    ensures r == Success(Request(GET, RulesPath, Some(RuleFilters(page, perPage)), None))
  {
    var params := new ParamBuilder(Some(map[]));
    AddIfGiven(params, "page", OfInt(page));
    AddIfGiven(params, "per_page", OfInt(perPage));
    assert params.paramDict == Some(RuleFilters(page, perPage));
    BuildsItself(params.paramDict.value);
    var built := params.Build();
    r := Send(RulesPath, built);
  }

  lemma RuleFiltersMirror(page: Option<int>, perPage: Option<int>)
    ensures var f := RuleFilters(page, perPage);
            f.Keys <= {"page", "per_page"} && Mirrors(f, "page", OfInt(page)) && Mirrors(f, "per_page", OfInt(perPage))
  {
  }

  /** `get_mealplan(item_id)`: the integer id is written in decimal as the last path segment,
      from which it can be read back. */
  function GetMealplan(itemId: int): (r: Request)
    ensures r.verb == GET && r.params.None? && r.body.None?
    ensures |r.path| > |MealplansPath| + 1 && r.path[..|MealplansPath| + 1] == MealplansPath + "/"
    ensures ParseInt(r.path[|MealplansPath| + 1..]) == Some(itemId)
  {
    var path := MealplansPath + "/" + IntToString(itemId);
    assert path[|MealplansPath| + 1..] == IntToString(itemId);
    IntToStringRoundTrip(itemId);
    Bare(GET, path)
  }

  /** `create_mealplan(data)`: the data is sent as given. */
  function CreateMealplan(mealplanData: Value): (r: Request)
    ensures r == Request(POST, MealplansPath, None, Some(mealplanData))
  {
    Request(POST, MealplansPath, None, Some(mealplanData))
  }

  function UpdateMealplan(itemId: int, mealplanData: Value): (r: Request)
    ensures r.verb == PUT && r.params.None? && r.body == Some(mealplanData)
    ensures r.path == GetMealplan(itemId).path
  {
    Request(PUT, MealplansPath + "/" + IntToString(itemId), None, Some(mealplanData))
  }

  function GetTodaysMeals(): (r: Request)
    ensures r == Bare(GET, MealplansPath + "/today")
  {
    Bare(GET, MealplansPath + "/today")
  }

  function CreateRandomMeal(randomMealData: Value): (r: Request)
    ensures r == Request(POST, MealplansPath + "/random", None, Some(randomMealData))
  {
    Request(POST, MealplansPath + "/random", None, Some(randomMealData))
  }

  function GetMealplanRule(ruleId: string): (r: Request)
    ensures r == Bare(GET, RulesPath + "/" + ruleId)
  {
    Bare(GET, RulesPath + "/" + ruleId)
  }

  function CreateMealplanRule(ruleData: Value): (r: Request)
    ensures r == Request(POST, RulesPath, None, Some(ruleData))
  {
    Request(POST, RulesPath, None, Some(ruleData))
  }

  function UpdateMealplanRule(ruleId: string, ruleData: Value): (r: Request)
    ensures r.verb == PUT && r.params.None? && r.body == Some(ruleData)
    ensures r.path == GetMealplanRule(ruleId).path
  {
    Request(PUT, RulesPath + "/" + ruleId, None, Some(ruleData))
  }
}
