# Request building in mealie-mcp-server, modelled in Dafny

mealie-mcp-server exposes a Mealie recipe server to MCP clients. Its tools call a backend
client. Before the client makes an HTTP call, it checks its arguments and builds the call's
query parameters and JSON body. This project models that request-building layer and proves
what each operation sends, or which error it raises first. It covers:

- the query-parameter builder `ParamBuilder`, as a class over an optional dictionary;
- the backend mixins for shopping lists, recipes, foods and meal plans. Each operation
  yields the `Request(method, path, params, body)` it hands to `_handle_request`, or the
  exception it raises before any request is made;
- the one-file client's own parts: its constructor checks, `MealieApiError`, and the choice
  of detail for an HTTP error. Its request builders are the same code as the mixins, so the
  modules `Food`, `Recipe` and `ShoppingList` model both copies;
- the older client `src/mealie_client.py`, which fills its query and body inline and checks
  status codes itself. Lemmas tie each of its requests to the newer client's;
- the pydantic schema `RecipeData` with its nested models. Validation checks field presence,
  `None` and defaults, and collects every issue. `model_dump(exclude_none=True)` is the
  dump. A stable recipe's dump validates back to the same recipe;
- the error envelope `{"success": false, "error": msg}`;
- the meal-plan and recipe tools, over an abstract backend that is fallible. The backend is a
  function from (call number, call) to "returned v" or "raised e". Each tool yields the calls
  it makes, in order, and what it returns.

Python dictionaries are `map<string, Value>`. `Value` is the JSON-like Python value:
`None`, booleans, integers, floats carried as their text, strings, lists and dictionaries.

## Model

| member | source | states |
|---|---|---|
| ParamBuilders.ParamBuilder.constructor | src/param_builder.py:5-6 | the builder holds the dictionary it is given; without one it holds `None` |
| ParamBuilders.ParamBuilder.Add | src/param_builder.py:8-11 | a new key is inserted with its value, `None` included, and nothing else changes; an existing key raises ValueError and leaves the dictionary as it was; a builder without a dictionary raises TypeError |
| ParamBuilders.ParamBuilder.Build | src/param_builder.py:13-22 | without a dictionary it raises AttributeError; it succeeds exactly when every list value holds only strings, and then returns the keys whose value is not `None`, lists joined by ","; otherwise it fails with the TypeError of a list holding a non-string |
| ParamBuilders.JoinItems | src/param_builder.py:19 | `",".join` succeeds exactly when every item is a string, and otherwise raises TypeError |
| ParamBuilders.FirstNonStr | src/param_builder.py:19 | finds the position of the first item that is not a string; there is none exactly when all items are strings |
| ParamBuilders.Rendered | src/param_builder.py:18-21 | a list is sent as its items joined by ","; any other value is sent unchanged |
| ParamBuilders.BuildParamsMirrors | src/param_builder.py:15-21 | a built key is present exactly when its input value is not `None`, and then holds the rendered value; no other key appears |
| ParamBuilders.BuildJoinsStringLists | src/param_builder.py:18-19 | a list of strings is sent comma-joined; the empty list is sent as "" and is kept |
| ParamBuilders.BuildParamsOfScalars | src/param_builder.py:14-21 | without list values, building only drops the `None` entries |
| ParamBuilders.BuildOmitsNone | src/param_builder.py:16-17 | a key whose value is `None` is left out, and the other keys are unaffected |
| ParamBuilders.BuildParamsStep | src/param_builder.py:15-21 | adding one fresh entry adds its rendered value to the built dictionary, unless the value is `None` |
| ParamBuilders.BuildParamsSteps4 | src/param_builder.py:15-21 | the same holds for four fresh entries added in turn |
| ParamBuilders.RenderedStrList | src/param_builder.py:18-19 | an optional list of strings is always buildable and renders as its comma-joined text, or as `None` when absent |
| Errors.ErrorResponse | src/errors.py:4-7 | the envelope has exactly the keys "success" and "error", with `success` false and `error` the message verbatim |
| Errors.ErrorMessageOf | src/errors.py:6 | a value counts as an error envelope exactly when `success` is false and `error` is a string |
| Errors.ErrorMessageRoundTrip | src/errors.py:6 | the message can be read back from its envelope unchanged |
| Errors.ErrorResponseInjective | src/errors.py:6 | two envelopes are equal exactly when their messages are |
| Exceptions.ApiErrorCodeRecoverable | src/mealie/mealie_client.py:14-18 | the text of a `MealieApiError` ends with a "(Status Code: N)" whose N reads back as the status it was raised with |
| Exceptions.Message | src/mealie/mealie_client.py:14-18 | the text of a `MealieApiError` starts with the message it was given and goes on past it; any other exception's text is the message it was raised with |
| Client.CheckCredentials | src/mealie/mealie_client.py:22-26 | the constructor accepts exactly a non-empty base URL and a non-empty API key; the base URL is checked first |
| Client.DetailOf | src/mealie/mealie_client.py:70-79 | the detail is the body's "detail" entry when the body parses to a dictionary holding one, the raw text when parsing fails, and otherwise "HTTP Error <status>" |
| Client.HttpStatusError | src/mealie/mealie_client.py:69-83 | the raised error carries the status, the message "API error for <method> <url>: <detail>", and the raw response text |
| Client.ApiErrorTextStartsWithMessage | src/mealie/mealie_client.py:18 | the text of a `MealieApiError` begins with its message |
| Client.HttpStatusErrorText | src/mealie/mealie_client.py:81-83 | the text of the raised error names the request first, ends with the response status, and quotes an unparsable body verbatim |
| Requests.Bare | src/mealie/recipe.py:77 | a call with neither `params=` nor `json=` carries neither |
| Requests.VerbNameInjective | src/mealie/mealie_client.py:81 | different HTTP methods are named differently in an error message |
| Food.GetFoods | src/mealie/food.py:11-53 | a GET of /api/foods whose query keys are the eight camelCase names, each present exactly when its argument is not `None` and then unchanged |
| Food.GetFoodsDefaultQuery | src/mealie/food.py:16 | with no arguments, only `orderDirection=desc` is sent |
| Food.GetFoodsWithoutDirection | src/mealie/food.py:16 | an explicit `None` order direction sends no query at all |
| Recipe.RecipesQuery | src/mealie/recipe.py:45-57 | every value of the query dictionary can be built; the list filters hold only strings |
| Recipe.GetRecipes | src/mealie/recipe.py:12-62 | a GET of /api/recipes whose query holds each argument that is not `None` under its camelCase key, with the list filters comma-joined |
| Recipe.GetRecipesDefaultQuery | src/mealie/recipe.py:17 | with no arguments, only `orderDirection=desc` is sent |
| Recipe.GetRecipesJoinsCategories | src/mealie/recipe.py:54 | a category filter is sent as one comma-joined string |
| Recipe.GetRecipesCategoriesRecoverable | src/mealie/recipe.py:54 | splitting the sent text at "," gives the category slugs back, provided none contains a comma |
| Recipe.GetRecipe | src/mealie/recipe.py:64-77 | an empty slug raises ValueError and nothing is sent; otherwise it is a GET of /api/recipes/<slug> |
| Recipe.UpdateRecipe | src/mealie/recipe.py:79-95 | the slug is checked before the data; it succeeds exactly when both are non-empty, and then sends the data unchanged as a PUT body to /api/recipes/<slug> |
| ShoppingList.ListPayload | src/mealie/shopping_list.py:27-30 | the body always holds "name", and holds "description" exactly when one is given |
| ShoppingList.CreateShoppingList | src/mealie/shopping_list.py:12-35 | an empty name raises ValueError; otherwise it POSTs that body to the lists path |
| ShoppingList.ListUpdatePayload | src/mealie/shopping_list.py:59-65 | the body always holds "id", and holds each of "name" and "description" exactly when given |
| ShoppingList.UpdateShoppingList | src/mealie/shopping_list.py:37-70 | an empty id raises first; with neither name nor description it raises; otherwise it PUTs that body to the list's path |
| ShoppingList.GetShoppingLists | src/mealie/shopping_list.py:72-100 | the query holds "page", "perPage" and "paginationSeed", each exactly when given |
| ShoppingList.GetShoppingList | src/mealie/shopping_list.py:102-115 | an empty list id raises, and exactly then; otherwise it is a GET of the list's path |
| ShoppingList.ItemPayload | src/mealie/shopping_list.py:144-153 | the body always holds "shoppingListId" and "display"; each optional key appears exactly when its argument is not `None` |
| ShoppingList.CreateShoppingListItem | src/mealie/shopping_list.py:117-156 | an empty list id raises first, then an empty item name; otherwise it POSTs that body to the items path |
| ShoppingList.ItemUpdatePayload | src/mealie/shopping_list.py:191-204 | the body holds "id" always, and no key but the seven the code writes |
| ShoppingList.ItemUpdateNameAndQuantity | src/mealie/shopping_list.py:193-196 | the new name is sent under "display", and the quantity under "quantity", each exactly when given |
| ShoppingList.ItemUpdateUnitAndNote | src/mealie/shopping_list.py:197-200 | the unit and the note are sent exactly when given |
| ShoppingList.ItemUpdateCheckedAndPosition | src/mealie/shopping_list.py:201-204 | the checked flag and the position are sent exactly when given |
| ShoppingList.UpdateShoppingListItem | src/mealie/shopping_list.py:158-209 | an empty item id raises first; when all six fields are `None` it raises; otherwise it PUTs the update body to the item's path |
| ShoppingList.DeleteShoppingListItem | src/mealie/shopping_list.py:211-224 | an empty item id raises, and exactly then; otherwise it is a DELETE of the item's path |
| ShoppingList.GetShoppingListItem | src/mealie/shopping_list.py:226-239 | an empty item id raises, and exactly then; otherwise it is a GET of the item's path |
| ShoppingList.ToggleShoppingListItem | src/mealie/shopping_list.py:241-254 | an empty item id raises, and exactly then; otherwise it is a PUT of the item's toggle path |
| ShoppingList.ItemProblem | src/mealie/shopping_list.py:277-278 | an item passes its check exactly when it is a dictionary whose value under the key is truthy |
| ShoppingList.FirstProblem | src/mealie/shopping_list.py:276-278 | no item fails exactly when all pass; otherwise the error reported is that of the first failing item |
| ShoppingList.FirstProblemAt | src/mealie/shopping_list.py:276-278 | once the first failing item is known, its error is the one reported |
| ShoppingList.BulkEntry | src/mealie/shopping_list.py:280-290 | an entry holds the list id and the item's "display", plus each of "quantity", "unit", "note" and "foodId" that is a key of the item, copied even when its value is `None` |
| ShoppingList.BulkEntries | src/mealie/shopping_list.py:275-292 | there is one entry per item, in the same order |
| ShoppingList.CopyBulkEntry | src/mealie/shopping_list.py:280-290 | the loop body that fills one entry produces exactly that entry |
| ShoppingList.BulkCreateRequest | src/mealie/shopping_list.py:256-295 | an empty list id raises first, then an empty or non-list `items`; it succeeds exactly when every item has a truthy "display", and otherwise raises the error of the first item that lacks one; on success it POSTs the entries to the bulk path |
| ShoppingList.BulkEntriesAre | src/mealie/shopping_list.py:275-292 | a payload of checked items, entry by entry, is the payload the operation specifies |
| ShoppingList.BulkCreateShoppingListItems | src/mealie/shopping_list.py:256-295 | the loop over the items raises or sends what the bulk-create specification says |
| ShoppingList.BulkUpdateRequest | src/mealie/shopping_list.py:297-318 | an empty or non-list `items` raises; it succeeds exactly when every item has a truthy "id", and otherwise raises the error of the first item that lacks one; on success it PUTs the list unchanged |
| ShoppingList.BulkUpdateShoppingListItems | src/mealie/shopping_list.py:309-318 | the checking loop raises or sends what the bulk-update specification says |
| ShoppingList.BulkDeleteShoppingListItems | src/mealie/shopping_list.py:320-333 | it succeeds exactly on a non-empty list, and then DELETEs with that list as the body |
| ShoppingList.GetAllShoppingListItems | src/mealie/shopping_list.py:335-373 | the query holds `list_id` under "shoppingListId" and each other filter under its key, each exactly when given |
| Mealplan.Send | src/mealie/mealplan.py:42-44 | the request is made only when `build` returns, and then carries its result |
| Mealplan.AddIfGiven | src/mealie/mealplan.py:33-40 | adding a fresh key cannot raise; the value is stored only when it is not `None` |
| Mealplan.BuildsItself | src/mealie/mealplan.py:42-44 | a dictionary of strings and integers is built unchanged |
| Mealplan.GetAllMealplansAsWritten | src/mealie/mealplan.py:32-44 | with any filter given, the first `add` raises TypeError; with none, `build` raises AttributeError; no request is made |
| Mealplan.GetAllMealplans | src/mealie/mealplan.py:33-44 | with an empty starting dictionary, the request always goes out and carries exactly the filters given |
| Mealplan.MealplanFiltersMirror | src/mealie/mealplan.py:33-40 | "start_date", "end_date", "page" and "per_page" are each present exactly when given |
| Mealplan.GetMealplanRulesAsWritten | src/mealie/mealplan.py:136-144 | the same defect: it raises TypeError or AttributeError and makes no request |
| Mealplan.GetMealplanRules | src/mealie/mealplan.py:137-144 | with an empty starting dictionary, the request carries exactly the paging filters given |
| Mealplan.RuleFiltersMirror | src/mealie/mealplan.py:137-140 | "page" and "per_page" are each present exactly when given |
| Mealplan.GetMealplan | src/mealie/mealplan.py:46-58 | a GET whose last path segment is the id in decimal, which reads back as the id |
| Mealplan.CreateMealplan | src/mealie/mealplan.py:60-77 | the data is POSTed unchanged to the meal-plans path |
| Mealplan.UpdateMealplan | src/mealie/mealplan.py:79-94 | the data is PUT unchanged to the same path that `get_mealplan` reads |
| Mealplan.GetTodaysMeals | src/mealie/mealplan.py:96-103 | a GET of the today path, without params or body |
| Mealplan.CreateRandomMeal | src/mealie/mealplan.py:105-119 | the data is POSTed unchanged to the random path |
| Mealplan.GetMealplanRule | src/mealie/mealplan.py:146-158 | a GET of the rule's path, without params or body |
| Mealplan.CreateMealplanRule | src/mealie/mealplan.py:160-175 | the data is POSTed unchanged to the rules path |
| Mealplan.UpdateMealplanRule | src/mealie/mealplan.py:177-192 | the data is PUT unchanged to the same path that `get_mealplan_rule` reads |
| LegacyClient.Accept | src/mealie_client.py:62-65 | it returns the body exactly on the expected status; any other status raises "Error: <code> - <text>" |
| LegacyClient.AcceptErrorNamesStatus | src/mealie_client.py:65 | whatever the response text, the error text starts with "Error: " and the digits right after it read back as the status code |
| LegacyClient.SetIfGiven | src/mealie_client.py:44-45 | a parameter is set only when its value is not `None` |
| LegacyClient.OrderingAgrees | src/mealie_client.py:44-51 | the older client's first four query keys are what `ParamBuilder` builds from the same arguments |
| LegacyClient.FoodsQueryAgrees | src/mealie_client.py:42-59 | the older client's food query equals the newer client's built query for the same arguments |
| LegacyClient.GetFoods | src/mealie_client.py:16-65 | it sends the same request as the newer `get_foods` and accepts only status 200 |
| LegacyClient.RecipesQueryAgrees | src/mealie_client.py:99-122 | the older client's recipe query, with its inline joins, equals the newer client's built query |
| LegacyClient.GetRecipes | src/mealie_client.py:67-128 | it sends the same request as the newer `get_recipes` and accepts only status 200 |
| LegacyClient.GetRecipe | src/mealie_client.py:130-143 | without the empty-slug check: the same request for a non-empty slug; a request for "/api/recipes/" where the newer client raises |
| LegacyClient.CreateShoppingList | src/mealie_client.py:145-166 | the body always holds "name", and "description" exactly when given; only status 201 is accepted |
| LegacyClient.UpdateShoppingList | src/mealie_client.py:168-198 | "id" is always sent; a call with neither name nor description is not rejected, and sends only the id |
| LegacyClient.GetShoppingLists | src/mealie_client.py:200-229 | it sends the same request as the newer `get_shopping_lists` |
| LegacyClient.GetShoppingList | src/mealie_client.py:231-244 | without the empty-id check: the same request for a non-empty id |
| RecipeModels.SlotValue | src/models/recipe.py:51-84 | a given non-`None` value is kept; a missing key gives the default, or an issue when the field is required; `None` is kept only by an `Optional` field |
| RecipeModels.Validated | src/models/recipe.py:51-84 | the validated values are exactly the declared fields without an issue |
| RecipeModels.FieldIssues | src/models/recipe.py:51-84 | there is no issue exactly when every declared field validates; each issue is located under the model's location |
| RecipeModels.ParseModel | src/models/recipe.py:6-48 | a nested model has no issues exactly when each declared field validates, and then it holds every declared field |
| RecipeModels.ParsedModelComplete | src/models/recipe.py:6-48 | a model without issues holds every declared field, with `None` only where the field accepts it |
| RecipeModels.ValidatedOfDump | src/models/recipe.py:51-84 | a dictionary that shows stable values as `exclude_none` shows them validates back to those values |
| RecipeModels.ParseModelOfDump | src/models/recipe.py:6-48 | such a dictionary also validates without an issue |
| RecipeModels.NullableDefaultNotRestored | src/models/recipe.py:42-48 | an explicit `None` in an `Optional[bool] = False` field does not survive the dump; the default comes back instead |
| RecipeModels.ParseOptionalModel | src/models/recipe.py:77 | an absent or `None` nested model stays `None`; a dictionary is validated with its issues under the field name; anything else is one issue |
| RecipeModels.ParseItems | src/models/recipe.py:78-79 | a list of models has no issues exactly when every item is a dictionary that validates; the models are in list order |
| RecipeModels.ParseModelList | src/models/recipe.py:78-79 | a missing list is empty; `None` or a non-list is an issue |
| RecipeModels.Extras | src/models/recipe.py:86 | the extra fields are exactly the undeclared keys of the input, with their values |
| RecipeModels.ParseRecipeIn | src/models/recipe.py:51-86 | validation fails exactly when some field has an issue, and reports every issue; on success it keeps the validated fields and the extra ones |
| RecipeModels.ParseRecipe | src/tools/recipe_tools.py:177 | `RecipeData(**d)` fails exactly when the recipe or one of its nested models has an issue, and then reports all of them; on success the plain fields are the validated inputs and the undeclared keys are kept |
| RecipeModels.DumpNested | src/models/recipe.py:77-80 | the dump's nested part holds only the four nested fields |
| RecipeModels.DumpRecipe | src/tools/recipe_tools.py:179 | the dump holds no `None` value and always holds both lists |
| RecipeModels.ParseItemsOfDump | src/models/recipe.py:78-79 | dumped stable items validate back to the same models |
| RecipeModels.DumpShowsFields | src/tools/recipe_tools.py:179 | the dump shows each plain field as `exclude_none` does |
| RecipeModels.ExtrasOfDump | src/models/recipe.py:86 | the extra fields of the dump are exactly the recipe's extra fields |
| RecipeModels.DumpShowsNested | src/models/recipe.py:77-80 | the dump holds both lists dumped item by item, and each optional model exactly when it is set |
| RecipeModels.NestedOfDump | src/models/recipe.py:77-80 | the nested fields of a stable recipe's dump validate back to its nested models |
| RecipeModels.PlainOfDump | src/models/recipe.py:52-76 | the plain fields of a stable recipe's dump validate back to its plain fields |
| RecipeModels.ParseRecipeInOfDump | src/models/recipe.py:51-86 | the dump of a stable recipe validates back to the same recipe |
| RecipeModels.NutritionSchemaWellFormed | src/models/recipe.py:6-17 | the nutrition schema lists exactly its declared fields and has no `None` default |
| RecipeModels.IngredientSchemaWellFormed | src/models/recipe.py:20-30 | likewise for the ingredient schema |
| RecipeModels.InstructionSchemaWellFormed | src/models/recipe.py:33-38 | likewise for the instruction schema |
| RecipeModels.SettingsSchemaWellFormed | src/models/recipe.py:41-48 | likewise for the settings schema |
| RecipeModels.RecipeOrderCovers | src/models/recipe.py:52-84 | every plain field of `RecipeData` is declared before `nutrition` or after `settings` |
| RecipeModels.NestedKeysApart | src/models/recipe.py:77-80 | no nested field of `RecipeData` is also a plain one |
| RecipeModels.RecipeDefaultsGiven | src/models/recipe.py:67-84 | no default of `RecipeData` is `None` |
| RecipeModels.RecipeDataSchemaWellFormed | src/models/recipe.py:51-86 | the `RecipeData` schema is well formed |
| RecipeModels.ParseRecipeOfDump | src/tools/recipe_tools.py:177-179 | validating the dump of a stable `RecipeData` gives it back |
| RecipeModels.RecipeRequiredSlots | src/models/recipe.py:53-56 | `userId`, `householdId`, `groupId` and `name` are the required plain fields |
| RecipeModels.RequiredPresent | src/models/recipe.py:53-56 | a required field of a model without issues is present and not `None` |
| RecipeModels.RequiredFieldsChecked | src/models/recipe.py:53-56 | `RecipeData` validates only when those four fields are present and not `None`, and then keeps them as given |
| RecipeModels.DefaultApplied | src/models/recipe.py:67-84 | a defaulted field missing from the input takes its default |
| RecipeModels.RequiredMissingRejected | src/models/recipe.py:24 | a required field that is missing or `None` is an issue |
| RecipeModels.IngredientDefaults | src/models/recipe.py:25-26 | a missing `isFood` is false and a missing `disableAmount` is true |
| RecipeModels.InstructionDefaults | src/models/recipe.py:35-38 | a missing `title` or `summary` is "", and missing `ingredientReferences` is [] |
| RecipeModels.SettingsFlags | src/models/recipe.py:42-48 | every settings flag is `Optional[bool] = False` |
| RecipeModels.SettingsDefaults | src/models/recipe.py:42-48 | every settings flag missing from the input is false |
| RecipeModels.ListIssueRejects | src/models/recipe.py:78-79 | an issue in the ingredients or the instructions makes the whole recipe invalid |
| RecipeModels.IngredientRequiredChecked | src/models/recipe.py:24-30 | an ingredient without `note` or `referenceId` makes the whole recipe invalid |
| RecipeModels.InstructionRequiredChecked | src/models/recipe.py:37 | an instruction without `text` makes the whole recipe invalid |
| RecipeModels.ValidationMessage | src/tools/recipe_tools.py:186-197 | the text of a validation error begins with the count of its issues |
| RecipeModels.ValidationCountRecoverable | src/tools/recipe_tools.py:197 | the number of issues reads back from the start of that text |
| Backend.Failed | src/errors.py:4-7 | a tool's error output is an envelope carrying exactly the message |
| Backend.OneCall | src/tools/recipe_tools.py:37-61 | a tool around one backend call makes exactly that call; it returns the result, or the envelope of the prefix followed by the exception's text |
| MealplanTools.GetAllMealplans | src/tools/mealplan_tools.py:19-59 | one backend call with the four filters; its result serialised, or "Error fetching mealplans: <e>" |
| MealplanTools.CreateMealplan | src/tools/mealplan_tools.py:62-88 | one create call with every field of the entry; its result serialised, or "Error creating mealplan entry: <e>" |
| MealplanTools.CreateMealplanBulk | src/tools/mealplan_tools.py:91-118 | one create call per entry, in list order; it stops at the first that raises, with earlier ones not undone; the fixed success message when all return, and zero calls for an empty list |
| MealplanTools.BulkDoneIsNoError | src/tools/mealplan_tools.py:111 | the bulk success message is not an error envelope |
| MealplanTools.GetTodaysMealplan | src/tools/mealplan_tools.py:121-137 | one call without arguments; its result serialised, or "Error fetching today's mealplan: <e>" |
| RecipeTools.GetRecipes | src/tools/recipe_tools.py:18-61 | one call with the filters; its result, or "Error fetching recipes: <e>" |
| RecipeTools.GetRecipe | src/tools/recipe_tools.py:64-84 | one call with the slug; its result, or "Error fetching recipe with slug '<slug>': <e>" |
| RecipeTools.ValidateAndUpdateIn | src/tools/recipe_tools.py:175-197 | invalid data makes no call and reports the validation error; valid data is updated with its dump; a failing update, too, is reported as "Invalid recipe data format: <e>" |
| RecipeTools.UpdateSendsDumpIn | src/tools/recipe_tools.py:177-185 | the data an update sends is the dump of the validated recipe: no `None` value, and both lists present |
| RecipeTools.StepFailureSaysInvalid | src/tools/recipe_tools.py:197 | every failure of the validate-and-update step begins "Invalid recipe data format: " |
| RecipeTools.UpdateRecipe | src/tools/recipe_tools.py:87-204 | every failure becomes "Error updating recipe with slug '<slug>': " followed by the step's error; no exception escapes |
| RecipeTools.CreateRecipe | src/tools/recipe_tools.py:313-366 | the create is always the first call and there are at most two. Without data it returns the created value after one call. With data it fails on a falsy slug without updating; otherwise it updates the recipe under the value the create returned. A failure after the create is reported as "Error creating recipe with name '<name>': ..." and nothing is undone |
| Text.IntToStringRoundTrip | src/mealie/mealie_client.py:18 | reading back the decimal text of an integer gives the integer |
| Text.Join | src/param_builder.py:19 | joining no parts gives "", and joining one part gives that part |
| Text.SplitJoinRoundTrip | src/param_builder.py:19 | splitting a comma-joined non-empty list gives it back, provided no element holds the separator |
| Text.EmptyAndBlankListsJoinAlike | src/param_builder.py:19 | the empty list and the list holding "" are sent as the same text |
| Text.PyStr | src/mealie/mealie_client.py:81 | a string detail is written as itself; an integer as its decimal text |
| Text.Repr | src/mealie/mealie_client.py:76-81 | an integer inside a list reads back as itself, a string is wrapped in single quotes, and a list is bracketed |
| Values.GetOrNone | src/mealie/shopping_list.py:277 | `item.get(key)` is the stored value, or `None` for a missing key |
| Values.Present | src/mealie/shopping_list.py:146-153 | conditional inserts keep each key exactly when its value is not `None` |
| Values.Truthy | src/mealie/shopping_list.py:277 | `None` is falsy, and a string, list or dictionary is truthy exactly when it is non-empty |

## Left out

- HTTP transport is not modelled. The `httpx` client, the connection probe, timeouts and
  connect errors are all I/O. A request is the record of the call to `_handle_request`.
- JSON serialisation is not modelled. `json.dumps` is a library call: envelopes and tool
  results stay structured values, and `Json(doc)` marks a result that would be serialised.
- Dictionary key order is not modelled. Python dictionaries keep insertion order, and a
  `map` has none.
- Logging is left out everywhere, because it has no stated behaviour.
- RecipeModels.ValidationMessage: only the count header is stated. The rest of the message
  is simplified to one line per issue, with a dotted location and a short reason. pydantic's
  exact text, including the input value and the documentation URL, is not reproduced.
- Text.PyStr: two simplifications of Python's `repr` are made. A dictionary is written `{...}`,
  because a `map` keeps no key order to print in, so a dictionary `detail` in an error body does
  not reach the `MealieApiError` message verbatim. Strings inside a list are always quoted with
  `'`, without Python's choice of `"` for text holding `'` and without its escapes.
- Text.Repr: the same two simplifications apply; it is what `Text.PyStr` writes for a list
  or a dictionary.
- Pydantic's type coercion and type checks are left out. A given value is kept as it is;
  only presence, `None` and defaults are validated.
- src/server.py is fastmcp glue that reads the environment at import. Its copy of
  `format_error_response` at lines 24-27 builds the same dictionary as src/errors.py:4-7,
  so `Errors.ErrorResponse` models both. The other tool modules, src/prompts.py and the
  package `__init__` files are pass-through glue or fixed text.
- The monolith src/mealie/mealie_client.py is not modelled separately. Its getters and
  shopping-list builders (lines 103-579) are the same code as the mixins, apart from where
  `ParamBuilder` is imported. `Food`, `Recipe` and `ShoppingList` therefore stand for both.
  That includes its empty-slug check at line 209-210, modelled by `Recipe.GetRecipe`.
- The tools call `get_mealplans`, `create_mealplan(**kwargs)` and `get_todays_mealplan`,
  whose signatures do not match src/mealie/mealplan.py. The model calls an abstract
  backend with those names, not the shown mixin.
- `MealPlanEntry` (`models.mealplan`) and `utils` are not part of this model. An entry is
  its `model_dump()` as a dictionary. The tools' `format_error_response` is taken to be the
  one in src/errors.py.
- ParamBuilders.ParamBuilder: a builder's dictionary is a value, so aliasing is not
  modelled. Mutating the dictionary passed to the constructor shows in the builder's state,
  and that effect is not captured.
- Floats are opaque. `quantity` and `recipeServings` are carried as their text, with no
  arithmetic and no coercion.

## Findings

| source | as written | input that shows it | evidently intended | confidence | as-written member | corrected member |
|---|---|---|---|---|---|---|
| src/mealie/mealplan.py:32 | `ParamBuilder()` leaves the dictionary `None`, so the first `add` raises TypeError, or `build` raises AttributeError | `get_all_mealplans(start_date="2024-01-01")`, or no argument at all | `ParamBuilder({})`: the request carries exactly the filters given | high, not executed | Mealplan.GetAllMealplansAsWritten | Mealplan.GetAllMealplans |
| src/mealie/mealplan.py:136 | the same defect in `get_mealplan_rules` | `get_mealplan_rules(page=1)` | `ParamBuilder({})`: the request carries exactly the paging filters given | high, not executed | Mealplan.GetMealplanRulesAsWritten | Mealplan.GetMealplanRules |

The code and its documentation disagree in three places. The model follows the code in
each:

- The docstrings of `update_recipe` and `create_recipe` (src/tools/recipe_tools.py:101 and
  :224) say ingredients default to `isFood=True` and `disableAmount=False`. The model at
  src/models/recipe.py:25-26 says the opposite. See `RecipeModels.IngredientDefaults`.
- The docstring examples of `recipe_data` have no `userId`, `householdId`, `groupId`, or
  ingredient `referenceId`, so they fail validation. See
  `RecipeModels.RequiredFieldsChecked` and `RecipeModels.IngredientRequiredChecked`.
- The inner `try` of both recipe tools also catches a failing backend update. That failure
  is reported as "Invalid recipe data format: ..." as well. See
  `RecipeTools.ValidateAndUpdateIn`.
