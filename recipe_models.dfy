/** src/models/recipe.py: the pydantic models a recipe update is validated against, and
    the `model_dump(exclude_none=True)` that turns a validated recipe back into a
    dictionary. Only field presence, `None` and defaults are modelled: a given value is
    kept as it is. */
module RecipeModels {
  import opened Wrappers
  import opened Values
  import opened Text

  /** How a declared field treats a missing key and an explicit `None`. */
  datatype Slot =
      /** `x: T`: a missing key or `None` is an issue. */
    | Required
      /** `x: Optional[T] = None`. */
    | Optional
      /** `x: T = v` (or a default factory): `None` is an issue. */
    | Defaulted(default: Value)
      /** `x: Optional[T] = v`: `None` is accepted and kept. */
    | NullableDefault(default: Value)

  /** A model's declared fields: their names in declaration order (the order issues are
      reported in) and how each one is validated. */
  datatype Schema = Schema(order: seq<string>, slots: map<string, Slot>)

  /** The declaration order lists exactly the declared fields. */
  predicate Covers(s: Schema) {
    (forall k :: k in s.order ==> k in s.slots) && (forall k :: k in s.slots ==> k in s.order)
  }

  /** No default is `None`: a field defaulting to `None` is written `Optional`. */
  predicate DefaultsGiven(s: Schema) {
    forall k :: k in s.slots && (s.slots[k].Defaulted? || s.slots[k].NullableDefault?) ==>
      s.slots[k].default != Null
  }

  datatype IssueKind = Missing | NoneGiven | NotADict | NotAList

  /** One validation error: where it is (field names, and list positions written in
      decimal), and what is wrong. */
  datatype Issue = Issue(loc: seq<string>, kind: IssueKind)

  /** A validated model: every declared field with the value it holds. */
  datatype Model = Model(values: map<string, Value>)

  predicate WellFormed(s: Schema) {
    Covers(s) && DefaultsGiven(s)
  }

  // ---- one field ----

  /** What validation makes of the declared field `key` of the input dictionary. */
  function SlotValue(d: map<string, Value>, key: string, slot: Slot): (r: Result<Value, IssueKind>)
    ensures key in d && d[key] != Null ==> r == Success(d[key])
    ensures key !in d ==> r == (match slot
                                case Required => Failure(Missing)
                                case Optional => Success(Null)
                                case Defaulted(v) => Success(v)
                                case NullableDefault(v) => Success(v))
    ensures key in d && d[key] == Null ==>
              r == (if slot.Optional? || slot.NullableDefault? then Success(Null) else Failure(NoneGiven))
  {
    if key !in d then
      match slot
      case Required => Failure(Missing)
      case Optional => Success(Null)
      case Defaulted(v) => Success(v)
      case NullableDefault(v) => Success(v)
    else if d[key] == Null && (slot.Required? || slot.Defaulted?) then Failure(NoneGiven)
    else Success(d[key])
  }

  // ---- a model's plain fields ----

  /** The value each declared field holds after validation, for the fields without an issue. */
  function Validated(d: map<string, Value>, slots: map<string, Slot>): (r: map<string, Value>)
    ensures forall k :: k in r <==> k in slots && SlotValue(d, k, slots[k]).Success?
    ensures forall k :: k in r ==> r[k] == SlotValue(d, k, slots[k]).value
  {
    map k | k in slots && SlotValue(d, k, slots[k]).Success? :: SlotValue(d, k, slots[k]).value
  }

  /** The issues of the fields named in `order`, in that order, each located under `loc`. */
  function FieldIssues(d: map<string, Value>, order: seq<string>, slots: map<string, Slot>, loc: seq<string>)
    : (r: seq<Issue>)
    ensures r == [] <==> forall k :: k in order && k in slots ==> SlotValue(d, k, slots[k]).Success?
    ensures forall j :: 0 <= j < |r| ==> |r[j].loc| == |loc| + 1 && r[j].loc[..|loc|] == loc
    decreases |order|
  {
    if order == [] then []
    else
      var rest := FieldIssues(d, order[1..], slots, loc);
      assert forall k :: k in order <==> k == order[0] || k in order[1..];
      if order[0] in slots && SlotValue(d, order[0], slots[order[0]]).Failure? then
        [Issue(loc + [order[0]], SlotValue(d, order[0], slots[order[0]]).error)] + rest
      else rest
  }

  /** A model validated: its values, and its issues in declaration order. */
  function ParseModel(d: map<string, Value>, s: Schema, loc: seq<string>): (r: (Model, seq<Issue>))
    ensures Covers(s) ==> (r.1 == [] <==> forall k :: k in s.slots ==> SlotValue(d, k, s.slots[k]).Success?)
    ensures Covers(s) && r.1 == [] ==> r.0.values.Keys == s.slots.Keys
    ensures forall k :: k in r.0.values ==>
              k in s.slots && SlotValue(d, k, s.slots[k]).Success? && r.0.values[k] == SlotValue(d, k, s.slots[k]).value
  {
    (Model(Validated(d, s.slots)), FieldIssues(d, s.order, s.slots, loc))
  }

  /** What validation keeps for a model: every declared field, and `None` only in a field
      that accepts it. */
  predicate Complete(values: map<string, Value>, slots: map<string, Slot>) {
    values.Keys == slots.Keys &&
    forall k :: k in values && values[k] == Null ==> slots[k].Optional? || slots[k].NullableDefault?
  }

  /** Complete values with `None` only where the default is `None`: the models that
      `model_dump(exclude_none=True)` followed by validation gives back unchanged. */
  predicate Stable(values: map<string, Value>, slots: map<string, Slot>) {
    values.Keys == slots.Keys &&
    forall k :: k in values && values[k] == Null ==> slots[k].Optional?
  }

  /** Validation without issues gives complete values. */
  lemma ParsedModelComplete(d: map<string, Value>, s: Schema, loc: seq<string>)
    requires WellFormed(s) && ParseModel(d, s, loc).1 == []
    ensures Complete(ParseModel(d, s, loc).0.values, s.slots)
  {
    var r := ParseModel(d, s, loc).0.values;
    forall k | k in r && r[k] == Null
      ensures s.slots[k].Optional? || s.slots[k].NullableDefault?
    {
      assert SlotValue(d, k, s.slots[k]).Success?;
    }
  }

  /** A dictionary that shows each declared field of stable values as `exclude_none` does
      (absent when `None`, itself otherwise) validates to those values, whatever undeclared
      keys it also holds. */
  lemma ValidatedOfDump(d: map<string, Value>, values: map<string, Value>, slots: map<string, Slot>)
    requires Stable(values, slots)
    requires forall k :: k in slots ==> Mirrors(d, k, values[k])
    ensures forall k :: k in slots ==> SlotValue(d, k, slots[k]) == Success(values[k])
    ensures Validated(d, slots) == values
  {
    forall k | k in slots
      ensures SlotValue(d, k, slots[k]) == Success(values[k])
    {
    }
  }

  /** Such a dictionary also validates without an issue. */
  lemma ParseModelOfDump(d: map<string, Value>, values: map<string, Value>, s: Schema, loc: seq<string>)
    requires Covers(s) && Stable(values, s.slots)
    requires forall k :: k in s.slots ==> Mirrors(d, k, values[k])
    ensures ParseModel(d, s, loc) == (Model(values), [])
  {
    ValidatedOfDump(d, values, s.slots);
  }

  /** An explicit `None` in a field of type `Optional[T] = v` does not survive
      `exclude_none`: validating the dump gives the default back instead. */
  lemma NullableDefaultNotRestored(values: map<string, Value>, s: Schema, k: string)
    requires WellFormed(s)
    requires k in values && values[k] == Null && k in s.slots && s.slots[k].NullableDefault?
    ensures k in ParseModel(Present(values), s, []).0.values
    ensures ParseModel(Present(values), s, []).0.values[k] == s.slots[k].default != values[k]
  {
    assert k !in Present(values);
  }

  // ---- nested models ----

  /** `Optional[Model] = None`: absent or `None` stays `None`; a dictionary is validated with
      its issues located under the field; anything else is one issue. */
  function ParseOptionalModel(d: map<string, Value>, key: string, s: Schema): (r: (Option<Model>, seq<Issue>))
    ensures key !in d || d[key] == Null ==> r == (None, [])
    ensures key in d && d[key].Object? ==>
              r.1 == ParseModel(d[key].fields, s, [key]).1 &&
              (r.1 == [] ==> r.0 == Some(ParseModel(d[key].fields, s, [key]).0))
    ensures key in d && d[key] != Null && !d[key].Object? ==> r == (None, [Issue([key], NotADict)])
  {
    if key !in d || d[key] == Null then (None, [])
    else if d[key].Object? then
      var p := ParseModel(d[key].fields, s, [key]);
      if p.1 == [] then (Some(p.0), []) else (None, p.1)
    else (None, [Issue([key], NotADict)])
  }

  /** Item `pos` of list field `key` is a dictionary that validates without an issue. */
  predicate ItemValid(v: Value, key: string, s: Schema, pos: nat) {
    v.Object? && ParseModel(v.fields, s, [key, IntToString(pos)]).1 == []
  }

  /** The items of a `List[Model]` from position `start` on: each must be a dictionary. */
  function ParseItems(items: seq<Value>, key: string, s: Schema, start: nat): (r: (seq<Model>, seq<Issue>))
    ensures r.1 == [] <==> forall i :: 0 <= i < |items| ==> ItemValid(items[i], key, s, start + i)
    ensures r.1 == [] ==>
              |r.0| == |items| &&
              forall i :: 0 <= i < |items| ==>
                items[i].Object? && r.0[i] == ParseModel(items[i].fields, s, [key, IntToString(start + i)]).0
    decreases |items|
  {
    if items == [] then ([], [])
    else
      var rest := ParseItems(items[1..], key, s, start + 1);
      var here :=
        if items[0].Object? then ParseModel(items[0].fields, s, [key, IntToString(start)])
        else (Model(map[]), [Issue([key, IntToString(start)], NotADict)]);
      assert here.1 == [] <==> ItemValid(items[0], key, s, start);
      assert forall i :: 1 <= i < |items| ==> items[1..][i - 1] == items[i] && start + 1 + (i - 1) == start + i;
      ([here.0] + rest.0, here.1 + rest.1)
  }

  /** `List[Model] = []`: absent is empty; `None` or a non-list is one issue. */
  function ParseModelList(d: map<string, Value>, key: string, s: Schema): (r: (seq<Model>, seq<Issue>))
    ensures key !in d ==> r == ([], [])
    ensures key in d && d[key] == Null ==> r.1 == [Issue([key], NoneGiven)]
    ensures key in d && d[key].List? ==> r == ParseItems(d[key].items, key, s, 0)
    ensures key in d && d[key] != Null && !d[key].List? ==> r.1 == [Issue([key], NotAList)]
  {
    if key !in d then ([], [])
    else if d[key] == Null then ([], [Issue([key], NoneGiven)])
    else if d[key].List? then ParseItems(d[key].items, key, s, 0)
    else ([], [Issue([key], NotAList)])
  }

  // ---- RecipeData ----

  /** The declared fields of `RecipeData`: the plain ones (those before `nutrition` and
      those after `settings`, in order) and the schemas of the four nested ones. */
  datatype RecipeSchema = RecipeSchema(slots: map<string, Slot>, head: seq<string>, tail: seq<string>,
                                       nutrition: Schema, ingredient: Schema, instruction: Schema,
                                       settings: Schema)

  const NestedKeys: set<string> := {"nutrition", "recipeIngredient", "recipeInstructions", "settings"}

  predicate RecipeSchemaWellFormed(rs: RecipeSchema) {
    (forall k :: k in rs.slots ==> k in rs.head || k in rs.tail) &&
    (forall k :: k in rs.head ==> k in rs.slots) && (forall k :: k in rs.tail ==> k in rs.slots) &&
    (forall k :: k in rs.slots ==> k !in NestedKeys) &&
    Covers(rs.nutrition) && Covers(rs.ingredient) && Covers(rs.instruction) && Covers(rs.settings)
  }

  /** A validated `RecipeData`: its plain fields, its nested models, and the extra fields
      that `extra="allow"` keeps. */
  datatype RecipeData = RecipeData(fields: Model, nutrition: Option<Model>, ingredients: seq<Model>,
                                   instructions: seq<Model>, settings: Option<Model>, extra: map<string, Value>)

  /** A key the recipe schema declares; any other key is an extra field. */
  predicate Declares(rs: RecipeSchema, k: string) {
    k in rs.slots || k in NestedKeys
  }

  /** The keys of the input that the schema does not declare, with their values. */
  function Extras(rs: RecipeSchema, d: map<string, Value>): (e: map<string, Value>)
    ensures forall k :: k in e <==> k in d && !Declares(rs, k)
    ensures forall k :: k in e ==> e[k] == d[k]
  {
    map k | k in d && !Declares(rs, k) :: d[k]
  }

  /** All issues of validating `d`, in declaration order. */
  function RecipeIssues(rs: RecipeSchema, d: map<string, Value>): seq<Issue> {
    FieldIssues(d, rs.head, rs.slots, [])
    + ParseOptionalModel(d, "nutrition", rs.nutrition).1
    + ParseModelList(d, "recipeIngredient", rs.ingredient).1
    + ParseModelList(d, "recipeInstructions", rs.instruction).1
    + ParseOptionalModel(d, "settings", rs.settings).1
    + FieldIssues(d, rs.tail, rs.slots, [])
  }

  /** Validation against a recipe schema: the validated recipe, or every issue found. */
  function ParseRecipeIn(rs: RecipeSchema, d: map<string, Value>): (r: Result<RecipeData, seq<Issue>>)
    ensures r.Failure? <==> RecipeIssues(rs, d) != []
    ensures r.Failure? ==> r.error == RecipeIssues(rs, d)
    ensures r.Success? ==> r.value.fields.values == Validated(d, rs.slots) && r.value.extra == Extras(rs, d)
  {
    var issues := RecipeIssues(rs, d);
    if issues != [] then Failure(issues)
    else
      Success(RecipeData(
        Model(Validated(d, rs.slots)),
        ParseOptionalModel(d, "nutrition", rs.nutrition).0,
        ParseModelList(d, "recipeIngredient", rs.ingredient).0,
        ParseModelList(d, "recipeInstructions", rs.instruction).0,
        ParseOptionalModel(d, "settings", rs.settings).0,
        Extras(rs, d)))
  }

  // ---- model_dump(exclude_none=True) ----

  /** A nested model dumped: its fields that do not hold `None`. */
  function DumpModel(m: Model): Value {
    Object(Present(m.values))
  }

  function DumpOptional(o: Option<Model>): Value {
    if o.Some? then DumpModel(o.value) else Null
  }

  function DumpItems(ms: seq<Model>): seq<Value> {
    seq(|ms|, i requires 0 <= i < |ms| => DumpModel(ms[i]))
  }

  /** The nested fields of a dump: both lists always, the optional models when set. */
  function DumpNested(r: RecipeData): (n: map<string, Value>)
    ensures n.Keys <= NestedKeys
  {
    var lists := map["recipeIngredient" := List(DumpItems(r.ingredients)),
                     "recipeInstructions" := List(DumpItems(r.instructions))];
    PutIfSome(PutIfSome(lists, "nutrition", DumpOptional(r.nutrition)), "settings", DumpOptional(r.settings))
  }

  /** `validated.model_dump(exclude_none=True)`: the declared fields and then the extra
      ones, each left out when it holds `None`. */
  function DumpRecipe(r: RecipeData): (d: map<string, Value>)
    ensures forall k :: k in d ==> d[k] != Null
    ensures "recipeIngredient" in d && "recipeInstructions" in d
  {
    Present(r.fields.values) + DumpNested(r) + Present(r.extra)
  }

  /** A validated recipe that its own dump validates back to: no `None` where the default
      is not `None`, and extra fields that are neither declared nor `None`. */
  predicate StableIn(rs: RecipeSchema, r: RecipeData) {
    Stable(r.fields.values, rs.slots) &&
    (r.nutrition.Some? ==> Stable(r.nutrition.value.values, rs.nutrition.slots)) &&
    (forall i :: 0 <= i < |r.ingredients| ==> Stable(r.ingredients[i].values, rs.ingredient.slots)) &&
    (forall i :: 0 <= i < |r.instructions| ==> Stable(r.instructions[i].values, rs.instruction.slots)) &&
    (r.settings.Some? ==> Stable(r.settings.value.values, rs.settings.slots)) &&
    (forall k :: k in r.extra ==> !Declares(rs, k) && r.extra[k] != Null)
  }

  /** Dumped stable items validate back to the same models. */
  lemma {:induction false} ParseItemsOfDump(ms: seq<Model>, key: string, s: Schema, start: nat)
    requires Covers(s)
    requires forall i :: 0 <= i < |ms| ==> Stable(ms[i].values, s.slots)
    ensures ParseItems(DumpItems(ms), key, s, start) == (ms, [])
    decreases |ms|
  {
    if ms != [] {
      assert DumpItems(ms)[1..] == DumpItems(ms[1..]);
      ParseItemsOfDump(ms[1..], key, s, start + 1);
      ParseModelOfDump(Present(ms[0].values), ms[0].values, s, [key, IntToString(start)]);
      assert ms == [ms[0]] + ms[1..];
    }
  }

  /** The dump shows each plain field as `exclude_none` does. */
  lemma DumpShowsFields(rs: RecipeSchema, r: RecipeData)
    requires forall k :: k in rs.slots ==> k !in NestedKeys
    requires forall k :: k in r.extra ==> !Declares(rs, k)
    ensures forall k :: k in rs.slots && k in r.fields.values ==> Mirrors(DumpRecipe(r), k, r.fields.values[k])
  {
  }

  /** The dump holds exactly the extra fields that are not `None`. */
  lemma ExtrasOfDump(rs: RecipeSchema, r: RecipeData)
    requires Stable(r.fields.values, rs.slots)
    requires forall k :: k in r.extra ==> !Declares(rs, k) && r.extra[k] != Null
    ensures Extras(rs, DumpRecipe(r)) == r.extra
  {
    PresentOfNoneFree(r.extra);
  }

  /** The nested fields of the dump. */
  lemma DumpShowsNested(rs: RecipeSchema, r: RecipeData)
    requires forall k :: k in rs.slots ==> k !in NestedKeys
    requires r.fields.values.Keys == rs.slots.Keys
    requires forall k :: k in r.extra ==> !Declares(rs, k)
    ensures var d := DumpRecipe(r);
            d["recipeIngredient"] == List(DumpItems(r.ingredients)) &&
            d["recipeInstructions"] == List(DumpItems(r.instructions)) &&
            Mirrors(d, "nutrition", DumpOptional(r.nutrition)) && Mirrors(d, "settings", DumpOptional(r.settings))
  {
    assert "nutrition" in NestedKeys && "settings" in NestedKeys;
    assert "recipeIngredient" in NestedKeys && "recipeInstructions" in NestedKeys;
  }

  /** Validating the nested fields of the dump of a stable recipe gives its nested models
      back without an issue. */
  lemma NestedOfDump(rs: RecipeSchema, r: RecipeData)
    requires RecipeSchemaWellFormed(rs) && StableIn(rs, r)
    ensures var d := DumpRecipe(r);
            ParseOptionalModel(d, "nutrition", rs.nutrition) == (r.nutrition, []) &&
            ParseModelList(d, "recipeIngredient", rs.ingredient) == (r.ingredients, []) &&
            ParseModelList(d, "recipeInstructions", rs.instruction) == (r.instructions, []) &&
            ParseOptionalModel(d, "settings", rs.settings) == (r.settings, [])
  {
    DumpShowsNested(rs, r);
    if r.nutrition.Some? {
      ParseModelOfDump(Present(r.nutrition.value.values), r.nutrition.value.values, rs.nutrition, ["nutrition"]);
    }
    if r.settings.Some? {
      ParseModelOfDump(Present(r.settings.value.values), r.settings.value.values, rs.settings, ["settings"]);
    }
    ParseItemsOfDump(r.ingredients, "recipeIngredient", rs.ingredient, 0);
    ParseItemsOfDump(r.instructions, "recipeInstructions", rs.instruction, 0);
  }

  /** Validating the plain fields of the dump of a stable recipe gives them back without
      an issue. */
  lemma PlainOfDump(rs: RecipeSchema, r: RecipeData)
    requires RecipeSchemaWellFormed(rs) && StableIn(rs, r)
    ensures var d := DumpRecipe(r);
            Validated(d, rs.slots) == r.fields.values &&
            FieldIssues(d, rs.head, rs.slots, []) == [] && FieldIssues(d, rs.tail, rs.slots, []) == []
  {
    DumpShowsFields(rs, r);
    ValidatedOfDump(DumpRecipe(r), r.fields.values, rs.slots);
  }

  /** Validating the dump of a stable recipe gives the recipe back. */
  lemma ParseRecipeInOfDump(rs: RecipeSchema, r: RecipeData)
    requires RecipeSchemaWellFormed(rs) && StableIn(rs, r)
    ensures ParseRecipeIn(rs, DumpRecipe(r)) == Success(r)
  {
    ExtrasOfDump(rs, r);
    NestedOfDump(rs, r);
    PlainOfDump(rs, r);
    assert RecipeIssues(rs, DumpRecipe(r)) == [];
  }

  // ---- the schema of src/models/recipe.py ----

  const Empty: Value := List([])

  const NutritionSchema: Schema := Schema(
    ["calories", "carbohydrateContent", "cholesterolContent", "fatContent", "fiberContent", "proteinContent",
     "saturatedFatContent", "sodiumContent", "sugarContent", "transFatContent", "unsaturatedFatContent"],
    map["calories" := Optional, "carbohydrateContent" := Optional, "cholesterolContent" := Optional,
        "fatContent" := Optional, "fiberContent" := Optional, "proteinContent" := Optional,
        "saturatedFatContent" := Optional, "sodiumContent" := Optional, "sugarContent" := Optional,
        "transFatContent" := Optional, "unsaturatedFatContent" := Optional])

  const IngredientSchema: Schema := Schema(
    ["quantity", "unit", "food", "note", "isFood", "disableAmount", "display", "title", "originalText",
     "referenceId"],
    map["quantity" := Optional, "unit" := Optional, "food" := Optional, "note" := Required,
        "isFood" := Defaulted(Bool(false)), "disableAmount" := Defaulted(Bool(true)), "display" := Optional,
        "title" := Optional, "originalText" := Optional, "referenceId" := Required])

  const InstructionSchema: Schema := Schema(
    ["id", "title", "summary", "text", "ingredientReferences"],
    map["id" := Optional, "title" := Defaulted(Str("")), "summary" := Defaulted(Str("")), "text" := Required,
        "ingredientReferences" := Defaulted(Empty)])

  const SettingsSchema: Schema := Schema(
    ["public", "showNutrition", "showAssets", "landscapeView", "disableComments", "disableAmount", "locked"],
    map["public" := NullableDefault(Bool(false)), "showNutrition" := NullableDefault(Bool(false)),
        "showAssets" := NullableDefault(Bool(false)), "landscapeView" := NullableDefault(Bool(false)),
        "disableComments" := NullableDefault(Bool(false)), "disableAmount" := NullableDefault(Bool(false)),
        "locked" := NullableDefault(Bool(false))])

  /** The plain (not nested) fields of `RecipeData`. */
  const RecipeSlots: map<string, Slot> := map[
    "id" := Optional, "userId" := Required, "householdId" := Required, "groupId" := Required,
    "name" := Required, "slug" := Optional, "image" := Optional, "description" := Optional,
    "recipeServings" := Optional, "recipeYieldQuantity" := Optional, "recipeYield" := Optional,
    "totalTime" := Optional, "prepTime" := Optional, "cookTime" := Optional, "performTime" := Optional,
    "recipeCategory" := Defaulted(Empty), "tags" := Defaulted(Empty), "tools" := Defaulted(Empty),
    "rating" := Optional, "orgURL" := Optional, "dateAdded" := Optional, "dateUpdated" := Optional,
    "createdAt" := Optional, "updatedAt" := Optional, "lastMade" := Optional,
    "assets" := Defaulted(Empty), "notes" := Defaulted(Empty), "extras" := Defaulted(Object(map[])),
    "comments" := Defaulted(Empty)]

  /** The plain fields declared before `nutrition`, in order. */
  const RecipeHead: seq<string> := [
    "id", "userId", "householdId", "groupId", "name", "slug", "image", "description", "recipeServings",
    "recipeYieldQuantity", "recipeYield", "totalTime", "prepTime", "cookTime", "performTime", "recipeCategory",
    "tags", "tools", "rating", "orgURL", "dateAdded", "dateUpdated", "createdAt", "updatedAt", "lastMade"]

  /** The plain fields declared after `settings`, in order. */
  const RecipeTail: seq<string> := ["assets", "notes", "extras", "comments"]

  const RecipeDataSchema: RecipeSchema :=
    RecipeSchema(RecipeSlots, RecipeHead, RecipeTail, NutritionSchema, IngredientSchema, InstructionSchema,
                 SettingsSchema)

  lemma NutritionSchemaWellFormed() ensures WellFormed(NutritionSchema) {}
  lemma IngredientSchemaWellFormed() ensures WellFormed(IngredientSchema) {}
  lemma InstructionSchemaWellFormed() ensures WellFormed(InstructionSchema) {}
  lemma SettingsSchemaWellFormed() ensures WellFormed(SettingsSchema) {}

  /** Each plain field of `RecipeData` is declared before `nutrition` or after `settings`. */
  lemma RecipeOrderCovers()
    ensures forall k :: k in RecipeSlots ==> k in RecipeHead || k in RecipeTail
    ensures forall k :: k in RecipeHead ==> k in RecipeSlots
    ensures forall k :: k in RecipeTail ==> k in RecipeSlots
  {
  }

  /** No nested field of `RecipeData` is also a plain one. */
  lemma NestedKeysApart()
    ensures forall k :: k in RecipeSlots ==> k !in NestedKeys
  {
  }

  lemma RecipeDefaultsGiven()
    ensures DefaultsGiven(Schema(RecipeHead, RecipeSlots))
  {
  }

  lemma RecipeDataSchemaWellFormed()
    ensures RecipeSchemaWellFormed(RecipeDataSchema)
  {
    NutritionSchemaWellFormed();
    IngredientSchemaWellFormed();
    InstructionSchemaWellFormed();
    SettingsSchemaWellFormed();
    RecipeOrderCovers();
    NestedKeysApart();
  }

  /** `RecipeData(**d)`: it fails exactly when some field of the recipe or of a nested model has
      an issue, and then it reports all of them; otherwise the plain fields are the validated
      inputs and the undeclared keys are kept as extras. */
  function ParseRecipe(d: map<string, Value>): (r: Result<RecipeData, seq<Issue>>)
    ensures r.Failure? <==> RecipeIssues(RecipeDataSchema, d) != []
    ensures r.Failure? ==> r.error == RecipeIssues(RecipeDataSchema, d)
    ensures r.Success? ==> r.value.fields.values == Validated(d, RecipeSlots) && r.value.extra == Extras(RecipeDataSchema, d)
  {
    ParseRecipeIn(RecipeDataSchema, d)
  }

  /** Validating the dump of a stable recipe gives the recipe back. */
  lemma ParseRecipeOfDump(r: RecipeData)
    requires StableIn(RecipeDataSchema, r)
    ensures ParseRecipe(DumpRecipe(r)) == Success(r)
  {
    RecipeDataSchemaWellFormed();
    ParseRecipeInOfDump(RecipeDataSchema, r);
  }

  const RequiredKeys: set<string> := {"userId", "householdId", "groupId", "name"}

  /** The required plain fields of `RecipeData`, all declared before `nutrition`. */
  lemma RecipeRequiredSlots()
    ensures forall k :: k in RequiredKeys ==> k in RecipeHead && k in RecipeSlots && RecipeSlots[k] == Required
  {
    assert RecipeSlots["userId"] == Required && RecipeSlots["householdId"] == Required;
    assert RecipeSlots["groupId"] == Required && RecipeSlots["name"] == Required;
  }

  /** A required field named in `order` of a model without issues is present and not `None`. */
  lemma RequiredPresent(d: map<string, Value>, order: seq<string>, slots: map<string, Slot>, loc: seq<string>, k: string)
    requires FieldIssues(d, order, slots, loc) == [] && k in order && k in slots && slots[k] == Required
    ensures k in d && d[k] != Null
  {
    assert SlotValue(d, k, slots[k]).Success?;
  }

  /** `RecipeData` validates only when `userId`, `householdId`, `groupId` and `name` are
      present and not `None`; then they are kept as given. */
  lemma RequiredFieldsChecked(d: map<string, Value>)
    requires ParseRecipe(d).Success?
    ensures forall k :: k in RequiredKeys ==>
              k in d && d[k] != Null && ParseRecipe(d).value.fields.values[k] == d[k]
  {
    assert FieldIssues(d, RecipeHead, RecipeSlots, []) == [];
    RecipeRequiredSlots();
    forall k | k in RequiredKeys ensures k in d && d[k] != Null {
      RequiredPresent(d, RecipeHead, RecipeSlots, [], k);
    }
  }

  /** A defaulted field missing from the input takes its default. */
  lemma DefaultApplied(d: map<string, Value>, s: Schema, loc: seq<string>, k: string)
    requires k in s.slots && (s.slots[k].Defaulted? || s.slots[k].NullableDefault?) && k !in d
    ensures k in ParseModel(d, s, loc).0.values
    ensures ParseModel(d, s, loc).0.values[k] == s.slots[k].default
  {
  }

  /** A required field that is missing or `None` is an issue. */
  lemma RequiredMissingRejected(d: map<string, Value>, s: Schema, loc: seq<string>, k: string)
    requires Covers(s) && k in s.slots && s.slots[k].Required? && (k !in d || d[k] == Null)
    ensures ParseModel(d, s, loc).1 != []
  {
    assert SlotValue(d, k, s.slots[k]).Failure?;
  }

  /** `RecipeIngredient`: `isFood` defaults to false and `disableAmount` to true. */
  lemma IngredientDefaults(d: map<string, Value>, loc: seq<string>)
    requires "isFood" !in d && "disableAmount" !in d
    ensures var v := ParseModel(d, IngredientSchema, loc).0.values;
            "isFood" in v && v["isFood"] == Bool(false) && "disableAmount" in v && v["disableAmount"] == Bool(true)
  {
    DefaultApplied(d, IngredientSchema, loc, "isFood");
    DefaultApplied(d, IngredientSchema, loc, "disableAmount");
  }

  /** `RecipeInstruction`: `title` and `summary` default to "" and `ingredientReferences` to []. */
  lemma InstructionDefaults(d: map<string, Value>, loc: seq<string>)
    requires "title" !in d && "summary" !in d && "ingredientReferences" !in d
    ensures var v := ParseModel(d, InstructionSchema, loc).0.values;
            "title" in v && v["title"] == Str("") && "summary" in v && v["summary"] == Str("") &&
            "ingredientReferences" in v && v["ingredientReferences"] == List([])
  {
    DefaultApplied(d, InstructionSchema, loc, "title");
    DefaultApplied(d, InstructionSchema, loc, "summary");
    DefaultApplied(d, InstructionSchema, loc, "ingredientReferences");
  }

  /** Every flag of `RecipeSettings` is `Optional[bool] = False`. */
  lemma SettingsFlags()
    ensures forall k :: k in SettingsSchema.slots ==> SettingsSchema.slots[k] == NullableDefault(Bool(false))
  {
  }

  /** `RecipeSettings`: every flag missing from the input is false. */
  lemma SettingsDefaults(d: map<string, Value>, loc: seq<string>)
    ensures forall k :: k in SettingsSchema.slots && k !in d ==>
              k in ParseModel(d, SettingsSchema, loc).0.values &&
              ParseModel(d, SettingsSchema, loc).0.values[k] == Bool(false)
  {
    SettingsFlags();
  }

  /** An issue in the ingredients or the instructions makes the whole recipe invalid. */
  lemma ListIssueRejects(d: map<string, Value>)
    requires ParseModelList(d, "recipeIngredient", IngredientSchema).1 != [] ||
             ParseModelList(d, "recipeInstructions", InstructionSchema).1 != []
    ensures ParseRecipe(d).Failure?
  {
  }

  /** An ingredient without `note` or `referenceId` makes the whole recipe invalid. */
  lemma IngredientRequiredChecked(d: map<string, Value>, i: nat, k: string)
    requires k == "note" || k == "referenceId"
    requires "recipeIngredient" in d && d["recipeIngredient"].List?
    requires i < |d["recipeIngredient"].items| && d["recipeIngredient"].items[i].Object?
    requires k !in d["recipeIngredient"].items[i].fields
    ensures ParseRecipe(d).Failure?
  {
    IngredientSchemaWellFormed();
    var item := d["recipeIngredient"].items[i];
    RequiredMissingRejected(item.fields, IngredientSchema, ["recipeIngredient", IntToString(i)], k);
    assert !ItemValid(item, "recipeIngredient", IngredientSchema, 0 + i);
    ListIssueRejects(d);
  }

  /** An instruction without `text` makes the whole recipe invalid. */
  lemma InstructionRequiredChecked(d: map<string, Value>, i: nat)
    requires "recipeInstructions" in d && d["recipeInstructions"].List?
    requires i < |d["recipeInstructions"].items| && d["recipeInstructions"].items[i].Object?
    requires "text" !in d["recipeInstructions"].items[i].fields
    ensures ParseRecipe(d).Failure?
  {
    InstructionSchemaWellFormed();
    var item := d["recipeInstructions"].items[i];
    RequiredMissingRejected(item.fields, InstructionSchema, ["recipeInstructions", IntToString(i)], "text");
    assert !ItemValid(item, "recipeInstructions", InstructionSchema, 0 + i);
    ListIssueRejects(d);
  }

  // ---- str(ValidationError) ----

  function KindText(k: IssueKind): string {
    match k
    case Missing => "Field required"
    case NoneGiven => "Input should not be None"
    case NotADict => "Input should be a valid dictionary"
    case NotAList => "Input should be a valid list"
  }

  /** One entry per issue: a new line, the dotted location, and what is wrong. */
  function IssueLines(issues: seq<Issue>): string
    decreases |issues|
  {
    if issues == [] then ""
    else "\n" + Join(issues[0].loc, ".") + "\n  " + KindText(issues[0].kind) + IssueLines(issues[1..])
  }

  function CountHeader(n: nat): string {
    IntToString(n) + " validation error" + (if n == 1 then "" else "s") + " for RecipeData"
  }

  /** `str(e)` of the `ValidationError` that `RecipeData(**d)` raises. */
  function ValidationMessage(issues: seq<Issue>): (m: string)
    ensures |CountHeader(|issues|)| <= |m| && m[..|CountHeader(|issues|)|] == CountHeader(|issues|)
  {
    CountHeader(|issues|) + IssueLines(issues)
  }

  /** The number of issues can be read back from the start of the message. */
  lemma ValidationCountRecoverable(issues: seq<Issue>)
    ensures var m := ValidationMessage(issues);
            var w := IntToString(|issues|);
            |w| <= |m| && ParseInt(m[..|w|]) == Some(|issues|)
  {
    var m := ValidationMessage(issues);
    var w := IntToString(|issues|);
    assert m[..|w|] == CountHeader(|issues|)[..|w|] == w;
    IntToStringRoundTrip(|issues|);
  }
}
