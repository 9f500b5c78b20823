/** src/tools/mealplan_tools.py: the four meal-plan tools. Each one returns an error
    envelope instead of raising. */
module MealplanTools {
  import opened Wrappers
  import opened Values
  import opened Errors
  import opened Backend

  const FetchError := "Error fetching mealplans: "
  const CreateError := "Error creating mealplan entry: "
  const BulkError := "Error creating bulk mealplan entries: "
  const TodayError := "Error fetching today's mealplan: "

  /** What `create_mealplan_bulk` returns once every entry is created. */
  const BulkDone: Value := Object(map["message" := Str("Bulk mealplan entries created successfully")])

  /** `get_all_mealplans`: one backend call with the four filters, its result serialised. */
  function GetAllMealplans(replies: Replies, startDate: Option<string>, endDate: Option<string>,
                           page: Option<int>, perPage: Option<int>): (run: Run)
    ensures var c := Call.GetMealplans(startDate, endDate, page, perPage);
            run.calls == [c] &&
            (replies(0, c).Returned? ==> run.out == Json(replies(0, c).value)) &&
            (replies(0, c).Raised? ==> run.out == Failed(FetchError + replies(0, c).message))
  {
    OneCall(replies, Call.GetMealplans(startDate, endDate, page, perPage), FetchError, true)
  }

  /** `create_mealplan`: one create call with every field of the entry. */
  function CreateMealplan(replies: Replies, entry: map<string, Value>): (run: Run)
    ensures var c := Call.CreateMealplan(entry);
            run.calls == [c] &&
            (replies(0, c).Returned? ==> run.out == Json(replies(0, c).value)) &&
            (replies(0, c).Raised? ==> run.out == Failed(CreateError + replies(0, c).message))
  {
    OneCall(replies, Call.CreateMealplan(entry), CreateError, true)
  }

  /** `get_todays_mealplan`: one call, without arguments. */
  function GetTodaysMealplan(replies: Replies): (run: Run)
    ensures run.calls == [Call.GetTodaysMealplan]
    ensures replies(0, Call.GetTodaysMealplan).Returned? ==> run.out == Json(replies(0, Call.GetTodaysMealplan).value)
    ensures replies(0, Call.GetTodaysMealplan).Raised? ==>
              run.out == Failed(TodayError + replies(0, Call.GetTodaysMealplan).message)
  {
    OneCall(replies, Call.GetTodaysMealplan, TodayError, true)
  }

  /** Every entry's create call returns, each made in list order. */
  predicate AllCreated(replies: Replies, entries: seq<map<string, Value>>) {
    forall i :: 0 <= i < |entries| ==> replies(i, Call.CreateMealplan(entries[i])).Returned?
  }

  /** `create_mealplan_bulk`: one create call per entry, in order, stopping at the first
      that raises; the entries created before it stay created. */
  method CreateMealplanBulk(replies: Replies, entries: seq<map<string, Value>>) returns (run: Run)
    ensures |run.calls| <= |entries|
    ensures forall i :: 0 <= i < |run.calls| ==> run.calls[i] == Call.CreateMealplan(entries[i])
    ensures forall i :: 0 <= i < |run.calls| - 1 ==> replies(i, run.calls[i]).Returned?
    ensures AllCreated(replies, entries) ==> |run.calls| == |entries| && run.out == Json(BulkDone)
    ensures !AllCreated(replies, entries) ==>
              |run.calls| > 0 && replies(|run.calls| - 1, run.calls[|run.calls| - 1]).Raised? &&
              run.out == Failed(BulkError + replies(|run.calls| - 1, run.calls[|run.calls| - 1]).message)
  {
    var calls: seq<Call> := [];
    var i := 0;
    while i < |entries|
      invariant 0 <= i <= |entries| && |calls| == i
      invariant forall j :: 0 <= j < i ==> calls[j] == Call.CreateMealplan(entries[j]) && replies(j, calls[j]).Returned?
    {
      var c := Call.CreateMealplan(entries[i]);
      calls := calls + [c];
      var reply := replies(i, c);
      if reply.Raised? {
        run := Run(calls, Failed(BulkError + reply.message));
        return;
      }
      i := i + 1;
    }
    run := Run(calls, Json(BulkDone));
  }

  /** The success message of a bulk create is not an error envelope. */
  lemma BulkDoneIsNoError()
    ensures ErrorMessageOf(BulkDone) == None
  {
  }
}
