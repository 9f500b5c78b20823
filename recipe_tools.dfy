/** src/tools/recipe_tools.py: the recipe tools. `update_recipe` and `create_recipe` run
    the input through `RecipeData` and send the backend only its dump without `None`s. */
module RecipeTools {
  import opened Wrappers
  import opened Values
  import opened Errors
  import opened Backend
  import opened RecipeModels

  const FetchAllError := "Error fetching recipes: "
  const InvalidFormat := "Invalid recipe data format: "
  const NoSlug := "Failed to get slug from created recipe"

  function FetchOneError(slug: string): string { "Error fetching recipe with slug '" + slug + "': " }
  function UpdateError(slug: string): string { "Error updating recipe with slug '" + slug + "': " }
  function CreateError(name: string): string { "Error creating recipe with name '" + name + "': " }

  /** `get_recipes`: one backend call with the filters; its result is returned as it is. */
  function GetRecipes(replies: Replies, search: Option<string>, page: Option<int>, perPage: Option<int>,
                      categories: Option<seq<string>>, tags: Option<seq<string>>): (run: Run)
    ensures var c := Call.GetRecipes(search, page, perPage, categories, tags);
            run.calls == [c] &&
            (replies(0, c).Returned? ==> run.out == Plain(replies(0, c).value)) &&
            (replies(0, c).Raised? ==> run.out == Failed(FetchAllError + replies(0, c).message))
  {
    OneCall(replies, Call.GetRecipes(search, page, perPage, categories, tags), FetchAllError, false)
  }

  /** `get_recipe`. */
  function GetRecipe(replies: Replies, slug: string): (run: Run)
    ensures run.calls == [Call.GetRecipe(slug)]
    ensures replies(0, Call.GetRecipe(slug)).Returned? ==> run.out == Plain(replies(0, Call.GetRecipe(slug)).value)
    ensures replies(0, Call.GetRecipe(slug)).Raised? ==>
              run.out == Failed(FetchOneError(slug) + replies(0, Call.GetRecipe(slug)).message)
  {
    OneCall(replies, Call.GetRecipe(slug), FetchOneError(slug), false)
  }

  /** The inner `try` of both tools, as call number `n`, against the recipe schema `rs`:
      validate `data`, then update the recipe `target` with the dump. Any failure, in
      validation or in the update, becomes "Invalid recipe data format: <str(e)>". */
  function ValidateAndUpdateIn(rs: RecipeSchema, replies: Replies, n: nat, target: Value, data: map<string, Value>)
    : (r: (seq<Call>, Result<Value, string>))
    ensures ParseRecipeIn(rs, data).Failure? ==>
              r == ([], Failure(InvalidFormat + ValidationMessage(ParseRecipeIn(rs, data).error)))
    ensures ParseRecipeIn(rs, data).Success? ==>
              var c := Call.UpdateRecipe(target, DumpRecipe(ParseRecipeIn(rs, data).value));
              r.0 == [c] &&
              (replies(n, c).Returned? ==> r.1 == Success(replies(n, c).value)) &&
              (replies(n, c).Raised? ==> r.1 == Failure(InvalidFormat + replies(n, c).message))
  {
    match ParseRecipeIn(rs, data)
    case Failure(issues) => ([], Failure(InvalidFormat + ValidationMessage(issues)))
    case Success(recipe) =>
      var c := Call.UpdateRecipe(target, DumpRecipe(recipe));
      match replies(n, c)
      case Returned(v) => ([c], Success(v))
      case Raised(m) => ([c], Failure(InvalidFormat + m))
  }

  /** Whatever data an update sends has no `None` value, always holds both lists, and is
      the dump of the recipe the validation produced. */
  lemma UpdateSendsDumpIn(rs: RecipeSchema, replies: Replies, n: nat, target: Value, data: map<string, Value>)
    ensures forall c :: c in ValidateAndUpdateIn(rs, replies, n, target, data).0 ==>
              c.UpdateRecipe? && c.target == target &&
              (forall k :: k in c.data ==> c.data[k] != Null) &&
              "recipeIngredient" in c.data && "recipeInstructions" in c.data &&
              c.data == DumpRecipe(ParseRecipeIn(rs, data).value)
  {
    var p := ParseRecipeIn(rs, data);
    if p.Success? {
      var d := DumpRecipe(p.value);
      assert ValidateAndUpdateIn(rs, replies, n, target, data).0 == [Call.UpdateRecipe(target, d)];
    }
  }

  /** A failing step says the data was invalid, even when it was the backend update that raised. */
  lemma StepFailureSaysInvalid(rs: RecipeSchema, replies: Replies, n: nat, target: Value, data: map<string, Value>)
    ensures var r := ValidateAndUpdateIn(rs, replies, n, target, data).1;
            r.Failure? ==> |InvalidFormat| <= |r.error| && r.error[..|InvalidFormat|] == InvalidFormat
  {
  }

  /** `update_recipe`. */
  function UpdateRecipe(replies: Replies, slug: string, data: map<string, Value>): (run: Run)
    ensures var step := ValidateAndUpdateIn(RecipeDataSchema, replies, 0, Str(slug), data);
            run.calls == step.0 &&
            (step.1.Success? ==> run.out == Plain(step.1.value)) &&
            (step.1.Failure? ==> run.out == Failed(UpdateError(slug) + step.1.error))
  {
    var step := ValidateAndUpdateIn(RecipeDataSchema, replies, 0, Str(slug), data);
    Run(step.0, if step.1.Success? then Plain(step.1.value) else Failed(UpdateError(slug) + step.1.error))
  }

  /** `recipe_data` that is not `None` and not empty. */
  predicate HasData(data: Option<map<string, Value>>) {
    data.Some? && data.value != map[]
  }

  /** `create_recipe`: create first; with data, update the created recipe under the value
      the create returned. A failure after the create does not undo it. */
  method CreateRecipe(replies: Replies, name: string, data: Option<map<string, Value>>) returns (run: Run)
    ensures 1 <= |run.calls| <= 2 && run.calls[0] == Call.CreateRecipe(name)
    ensures replies(0, Call.CreateRecipe(name)).Raised? ==>
              run == Run([Call.CreateRecipe(name)], Failed(CreateError(name) + replies(0, Call.CreateRecipe(name)).message))
    ensures replies(0, Call.CreateRecipe(name)).Returned? && !HasData(data) ==>
              run == Run([Call.CreateRecipe(name)], Plain(replies(0, Call.CreateRecipe(name)).value))
    ensures replies(0, Call.CreateRecipe(name)).Returned? && HasData(data) &&
            !Truthy(replies(0, Call.CreateRecipe(name)).value) ==>
              run == Run([Call.CreateRecipe(name)], Failed(NoSlug))
    ensures replies(0, Call.CreateRecipe(name)).Returned? && HasData(data) &&
            Truthy(replies(0, Call.CreateRecipe(name)).value) ==>
              var step := ValidateAndUpdateIn(RecipeDataSchema, replies, 1, replies(0, Call.CreateRecipe(name)).value, data.value);
              run.calls == [Call.CreateRecipe(name)] + step.0 &&
              (step.1.Success? ==> run.out == Plain(step.1.value)) &&
              (step.1.Failure? ==> run.out == Failed(CreateError(name) + step.1.error))
  {
    var create := Call.CreateRecipe(name);
    var created := replies(0, create);
    if created.Raised? {
      run := Run([create], Failed(CreateError(name) + created.message));
      return;
    }
    var slug := created.value;
    if !HasData(data) {
      run := Run([create], Plain(slug));
      return;
    }
    if !Truthy(slug) {
      run := Run([create], Failed(NoSlug));
      return;
    }
    var step := ValidateAndUpdateIn(RecipeDataSchema, replies, 1, slug, data.value);
    if step.1.Success? {
      run := Run([create] + step.0, Plain(step.1.value));
    } else {
      run := Run([create] + step.0, Failed(CreateError(name) + step.1.error));
    }
  }
}
