/** The backend the tools of src/tools/ call, seen from the tools: an abstract, fallible
    service. Each call either returns a value or raises an exception, whose `str` is all a
    tool uses. */
module Backend {
  import opened Wrappers
  import opened Values
  import opened Errors

  /** The backend operations the modelled tools call, with their arguments. */
  datatype Call =
    | GetMealplans(startDate: Option<string>, endDate: Option<string>, page: Option<int>, perPage: Option<int>)
      /** `create_mealplan(**entry.model_dump())`: the entry's fields as keyword arguments. */
    | CreateMealplan(entry: map<string, Value>)
    | GetTodaysMealplan
    | GetRecipes(search: Option<string>, page: Option<int>, perPage: Option<int>,
                 categories: Option<seq<string>>, tags: Option<seq<string>>)
    | GetRecipe(slug: string)
      /** The slug is whatever the caller passes: a tool argument, or what a create returned. */
    | UpdateRecipe(target: Value, data: map<string, Value>)
    | CreateRecipe(name: string)

  datatype Reply = Returned(value: Value) | Raised(message: string)

  /** How the backend answers: `reply(n, c)` is the answer to call `c` made as the `n`-th
      call (from 0) of one tool run. */
  type Replies = (nat, Call) -> Reply

  /** What a tool returns: the text `json.dumps(doc)`, or a backend value returned as it is. */
  datatype ToolOutput = Json(doc: Value) | Plain(value: Value)

  /** One tool run: the backend calls it made, in order, and what it returned. */
  datatype Run = Run(calls: seq<Call>, out: ToolOutput)

  /** `format_error_response(msg)`, as a tool returns it. */
  function Failed(msg: string): (o: ToolOutput)
    ensures o.Json? && ErrorMessageOf(o.doc) == Some(msg)
  {
    ErrorMessageRoundTrip(msg);
    Json(ErrorResponse(msg))
  }

  /** A tool around one backend call: its result, serialised or not, or the envelope of
      `prefix + str(e)`. */
  function OneCall(replies: Replies, c: Call, prefix: string, serialise: bool): (run: Run)
    ensures run.calls == [c]
    ensures replies(0, c).Raised? ==> run.out.Json? && ErrorMessageOf(run.out.doc) == Some(prefix + replies(0, c).message)
    ensures replies(0, c).Returned? ==>
              run.out == (if serialise then Json(replies(0, c).value) else Plain(replies(0, c).value))
  {
    match replies(0, c)
    case Returned(v) => Run([c], if serialise then Json(v) else Plain(v))
    case Raised(m) => Run([c], Failed(prefix + m))
  }
}
