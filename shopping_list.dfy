/** src/mealie/shopping_list.py: `ShoppingListMixin`, the shopping-list endpoints. Each
    operation yields the request it would hand to `_handle_request`, or the exception it
    raises before any request is made. */
module ShoppingList {
  import opened Wrappers
  import opened Values
  import opened Exceptions
  import opened Requests
  import opened ParamBuilders

  const ListsPath := "/api/households/shopping/lists"
  const ItemsPath := "/api/shopping/items"
  const BulkPath := "/api/shopping/items/bulk"

  const EmptyName := ValueError("Shopping list name cannot be empty")
  const EmptyListId := ValueError("Shopping list ID cannot be empty")
  const NoListField := ValueError("At least one of name or description must be provided")
  const EmptyItemId := ValueError("Shopping list item ID cannot be empty")
  const EmptyItemName := ValueError("Item name cannot be empty")
  const NoItemField := ValueError("At least one parameter must be provided to update")
  const NotItemList := ValueError("Items must be a non-empty list of item dictionaries")
  const NotIdList := ValueError("Item IDs must be a non-empty list")
  const NoDisplay := ValueError("Each item must have a 'display' name")
  const NoId := ValueError("Each item must have an 'id' field")

  // ---- create_shopping_list / update_shopping_list ----

  /** The body of a new list: always "name", and "description" exactly when one is given. */
  function ListPayload(name: string, description: Option<string>): (p: map<string, Value>)
    ensures p.Keys <= {"name", "description"}
    ensures "name" in p && p["name"] == Str(name)
    ensures Mirrors(p, "description", OfStr(description))
  {
    PutIfSome(map["name" := Str(name)], "description", OfStr(description))
  }

  method CreateShoppingList(name: string, description: Option<string> := None) returns (r: Result<Request, Exception>)
    ensures name == "" ==> r == Failure(EmptyName)
    ensures name != "" ==> r == Success(Request(POST, ListsPath, None, Some(Object(ListPayload(name, description)))))
  {
    if name == "" {
      return Failure(EmptyName);
    }
    var payload := map["name" := Str(name)];
    if description.Some? {
      payload := payload["description" := Str(description.value)];
    }
    r := Success(Request(POST, ListsPath, None, Some(Object(payload))));
  }

  /** The body of a list update: always "id", and each of "name", "description" exactly
      when it is given. */
  function ListUpdatePayload(listId: string, name: Option<string>, description: Option<string>): (p: map<string, Value>)
    ensures p.Keys <= {"id", "name", "description"}
    ensures "id" in p && p["id"] == Str(listId)
    ensures Mirrors(p, "name", OfStr(name)) && Mirrors(p, "description", OfStr(description))
  {
    PutIfSome(PutIfSome(map["id" := Str(listId)], "name", OfStr(name)), "description", OfStr(description))
  }

  method UpdateShoppingList(listId: string, name: Option<string> := None, description: Option<string> := None)
    returns (r: Result<Request, Exception>)
    ensures listId == "" ==> r == Failure(EmptyListId)
    ensures listId != "" && name.None? && description.None? ==> r == Failure(NoListField)
    ensures listId != "" && (name.Some? || description.Some?) ==>
              r == Success(Request(PUT, ListsPath + "/" + listId, None,
                                   Some(Object(ListUpdatePayload(listId, name, description)))))
  {
    if listId == "" {
      return Failure(EmptyListId);
    }
    if name.None? && description.None? {
      return Failure(NoListField);
    }
    var payload := map["id" := Str(listId)];
    if name.Some? {
      payload := payload["name" := Str(name.value)];
    }
    if description.Some? {
      payload := payload["description" := Str(description.value)];
    }
    r := Success(Request(PUT, ListsPath + "/" + listId, None, Some(Object(payload))));
  }

  // ---- get_shopping_lists / get_shopping_list ----

  /** The `param_dict` literal of `get_shopping_lists`. */
  function ListsQuery(page: Option<int>, perPage: Option<int>, paginationSeed: Option<string>): map<string, Value> {
    map["page" := OfInt(page), "perPage" := OfInt(perPage), "paginationSeed" := OfStr(paginationSeed)]
  }

  function GetShoppingLists(page: Option<int> := None, perPage: Option<int> := None, paginationSeed: Option<string> := None)
    : (r: Request)
    ensures r.verb == GET && r.path == ListsPath && r.body.None? && r.params.Some?
    ensures r.params.value.Keys <= {"page", "perPage", "paginationSeed"}
    ensures Mirrors(r.params.value, "page", OfInt(page))
    ensures Mirrors(r.params.value, "perPage", OfInt(perPage))
    ensures Mirrors(r.params.value, "paginationSeed", OfStr(paginationSeed))
  {
    BuildParamsOfScalars(ListsQuery(page, perPage, paginationSeed));
    Request(GET, ListsPath, Some(BuildParams(ListsQuery(page, perPage, paginationSeed))), None)
  }

  function GetShoppingList(listId: string): (r: Result<Request, Exception>)
    ensures listId == "" <==> r == Failure(EmptyListId)
    ensures listId != "" ==> r == Success(Bare(GET, ListsPath + "/" + listId))
  {
    if listId == "" then Failure(EmptyListId) else Success(Bare(GET, ListsPath + "/" + listId))
  }

  // ---- create_shopping_list_item / update_shopping_list_item ----

  /** The body of a new item: "shoppingListId" and "display" always, each optional key
      exactly when its argument is not `None`. */
  function ItemPayload(listId: string, itemName: string, quantity: Option<Float>, unit: Option<string>,
                       note: Option<string>, foodId: Option<string>): (p: map<string, Value>)
    ensures p.Keys <= {"shoppingListId", "display", "quantity", "unit", "note", "foodId"}
    ensures "shoppingListId" in p && p["shoppingListId"] == Str(listId)
    ensures "display" in p && p["display"] == Str(itemName)
    ensures Mirrors(p, "quantity", OfFloat(quantity)) && Mirrors(p, "unit", OfStr(unit))
    ensures Mirrors(p, "note", OfStr(note)) && Mirrors(p, "foodId", OfStr(foodId))
  {
    var p := map["shoppingListId" := Str(listId), "display" := Str(itemName)];
    var p := PutIfSome(p, "quantity", OfFloat(quantity));
    var p := PutIfSome(p, "unit", OfStr(unit));
    var p := PutIfSome(p, "note", OfStr(note));
    PutIfSome(p, "foodId", OfStr(foodId))
  }

  method CreateShoppingListItem(listId: string, itemName: string, quantity: Option<Float> := None,
                                unit: Option<string> := None, note: Option<string> := None,
                                foodId: Option<string> := None)
    returns (r: Result<Request, Exception>)
    ensures listId == "" ==> r == Failure(EmptyListId)
    ensures listId != "" && itemName == "" ==> r == Failure(EmptyItemName)
    ensures listId != "" && itemName != "" ==>
              r == Success(Request(POST, ItemsPath, None,
                                   Some(Object(ItemPayload(listId, itemName, quantity, unit, note, foodId)))))
  {
    if listId == "" {
      return Failure(EmptyListId);
    }
    if itemName == "" {
      return Failure(EmptyItemName);
    }
    var payload := map["shoppingListId" := Str(listId), "display" := Str(itemName)];
    if quantity.Some? {
      payload := payload["quantity" := Num(quantity.value)];
    }
    if unit.Some? {
      payload := payload["unit" := Str(unit.value)];
    }
    if note.Some? {
      payload := payload["note" := Str(note.value)];
    }
    if foodId.Some? {
      payload := payload["foodId" := Str(foodId.value)];
    }
    r := Success(Request(POST, ItemsPath, None, Some(Object(payload))));
  }

  /** The body of an item update: "id" always; the new name goes under "display"; each
      other field exactly when it is not `None`. */
  function ItemUpdatePayload(itemId: string, itemName: Option<string>, quantity: Option<Float>, unit: Option<string>,
                             note: Option<string>, checked: Option<bool>, position: Option<int>): (p: map<string, Value>)
    ensures p.Keys <= {"id", "display", "quantity", "unit", "note", "checked", "position"}
    ensures "id" in p && p["id"] == Str(itemId)
  {
    var p := PutIfSome(map["id" := Str(itemId)], "display", OfStr(itemName));
    var p := PutIfSome(p, "quantity", OfFloat(quantity));
    var p := PutIfSome(p, "unit", OfStr(unit));
    var p := PutIfSome(p, "note", OfStr(note));
    var p := PutIfSome(p, "checked", OfBool(checked));
    PutIfSome(p, "position", OfInt(position))
  }

  /** The new name goes under "display", and the quantity under "quantity", each exactly when given. */
  lemma ItemUpdateNameAndQuantity(itemId: string, itemName: Option<string>, quantity: Option<Float>, unit: Option<string>,
                                  note: Option<string>, checked: Option<bool>, position: Option<int>)
    ensures var p := ItemUpdatePayload(itemId, itemName, quantity, unit, note, checked, position);
            Mirrors(p, "display", OfStr(itemName)) && Mirrors(p, "quantity", OfFloat(quantity))
  {
  }

  /** The unit and the note are sent exactly when given. */
  lemma ItemUpdateUnitAndNote(itemId: string, itemName: Option<string>, quantity: Option<Float>, unit: Option<string>,
                              note: Option<string>, checked: Option<bool>, position: Option<int>)
    ensures var p := ItemUpdatePayload(itemId, itemName, quantity, unit, note, checked, position);
            Mirrors(p, "unit", OfStr(unit)) && Mirrors(p, "note", OfStr(note))
  {
  }

  /** The checked flag and the position are sent exactly when given. */
  lemma ItemUpdateCheckedAndPosition(itemId: string, itemName: Option<string>, quantity: Option<Float>, unit: Option<string>,
                                     note: Option<string>, checked: Option<bool>, position: Option<int>)
    ensures var p := ItemUpdatePayload(itemId, itemName, quantity, unit, note, checked, position);
            Mirrors(p, "checked", OfBool(checked)) && Mirrors(p, "position", OfInt(position))
  {
  }

  predicate NoneGiven(itemName: Option<string>, quantity: Option<Float>, unit: Option<string>, note: Option<string>,
                      checked: Option<bool>, position: Option<int>) {
    itemName.None? && quantity.None? && unit.None? && note.None? && checked.None? && position.None?
  }

  method UpdateShoppingListItem(itemId: string, itemName: Option<string> := None, quantity: Option<Float> := None,
                                unit: Option<string> := None, note: Option<string> := None,
                                checked: Option<bool> := None, position: Option<int> := None)
    returns (r: Result<Request, Exception>)
    ensures itemId == "" ==> r == Failure(EmptyItemId)
    ensures itemId != "" && NoneGiven(itemName, quantity, unit, note, checked, position) ==> r == Failure(NoItemField)
    ensures itemId != "" && !NoneGiven(itemName, quantity, unit, note, checked, position) ==> r == Success(Request(PUT, ItemsPath + "/" + itemId, None,
                                       Some(Object(ItemUpdatePayload(itemId, itemName, quantity, unit, note, checked, position)))))
  {
    if itemId == "" {
      return Failure(EmptyItemId);
    }
    if itemName.None? && quantity.None? && unit.None? && note.None? && checked.None? && position.None? {
      return Failure(NoItemField);
    }
    var payload := map["id" := Str(itemId)];
    if itemName.Some? {
      payload := payload["display" := Str(itemName.value)];
    }
    if quantity.Some? {
      payload := payload["quantity" := Num(quantity.value)];
    }
    if unit.Some? {
      payload := payload["unit" := Str(unit.value)];
    }
    if note.Some? {
      payload := payload["note" := Str(note.value)];
    }
    if checked.Some? {
      payload := payload["checked" := Bool(checked.value)];
    }
    if position.Some? {
      payload := payload["position" := Int(position.value)];
    }
    r := Success(Request(PUT, ItemsPath + "/" + itemId, None, Some(Object(payload))));
  }

  // ---- delete / get / toggle ----

  function DeleteShoppingListItem(itemId: string): (r: Result<Request, Exception>)
    ensures itemId == "" <==> r == Failure(EmptyItemId)
    ensures itemId != "" ==> r == Success(Bare(DELETE, ItemsPath + "/" + itemId))
  {
    if itemId == "" then Failure(EmptyItemId) else Success(Bare(DELETE, ItemsPath + "/" + itemId))
  }

  function GetShoppingListItem(itemId: string): (r: Result<Request, Exception>)
    ensures itemId == "" <==> r == Failure(EmptyItemId)
    ensures itemId != "" ==> r == Success(Bare(GET, ItemsPath + "/" + itemId))
  {
    if itemId == "" then Failure(EmptyItemId) else Success(Bare(GET, ItemsPath + "/" + itemId))
  }

  function ToggleShoppingListItem(itemId: string): (r: Result<Request, Exception>)
    ensures itemId == "" <==> r == Failure(EmptyItemId)
    ensures itemId != "" ==> r == Success(Bare(PUT, ItemsPath + "/" + itemId + "/toggle"))
  {
    if itemId == "" then Failure(EmptyItemId) else Success(Bare(PUT, ItemsPath + "/" + itemId + "/toggle"))
  }

  // ---- bulk operations ----

  /** The check `if not item.get(key)` makes of one list element: a non-dictionary has no
      `get` and raises AttributeError; a missing or falsy value raises `missing`. */
  function ItemProblem(item: Value, key: string, missing: Exception): (r: Option<Exception>)
    ensures r.None? <==> item.Object? && Truthy(GetOrNone(item.fields, key))
    ensures r.None? ==> key in item.fields
  {
    if !item.Object? then Some(AttributeError("'" + TypeName(item) + "' object has no attribute 'get'"))
    else if !Truthy(GetOrNone(item.fields, key)) then Some(missing)
    else None
  }

  /** The exception of the first element that fails its check, if any. */
  function FirstProblem(items: seq<Value>, key: string, missing: Exception): (r: Option<Exception>)
    ensures r.None? <==> forall i :: 0 <= i < |items| ==> ItemProblem(items[i], key, missing).None?
    ensures r.Some? ==> exists j :: 0 <= j < |items| && ItemProblem(items[j], key, missing) == r &&
                                   forall i :: 0 <= i < j ==> ItemProblem(items[i], key, missing).None?
  {
    if items == [] then None
    else if ItemProblem(items[0], key, missing).Some? then ItemProblem(items[0], key, missing)
    else
      var r := FirstProblem(items[1..], key, missing);
      assert forall i :: 1 <= i < |items| ==> items[i] == items[1..][i - 1];
      r
  }

  /** Once the first failing element is known, it is the one reported. */
  lemma FirstProblemAt(items: seq<Value>, key: string, missing: Exception, j: nat)
    requires j < |items| && ItemProblem(items[j], key, missing).Some?
    requires forall i :: 0 <= i < j ==> ItemProblem(items[i], key, missing).None?
    ensures FirstProblem(items, key, missing) == ItemProblem(items[j], key, missing)
  {
    var r := FirstProblem(items, key, missing);
    assert r.Some?;
    var j' :| 0 <= j' < |items| && ItemProblem(items[j'], key, missing) == r &&
              forall i :: 0 <= i < j' ==> ItemProblem(items[i], key, missing).None?;
    assert j' == j;
  }

  const BulkOptionalKeys: set<string> := {"quantity", "unit", "note", "foodId"}

  /** What bulk create sends for one item: the list's id, the item's "display", and each of
      "quantity", "unit", "note", "foodId" that is a key of the item, even when its value is
      `None`. */
  function BulkEntry(listId: string, item: map<string, Value>): (e: map<string, Value>)
    requires "display" in item
    ensures e.Keys == {"shoppingListId", "display"} + (item.Keys * BulkOptionalKeys)
    ensures e["shoppingListId"] == Str(listId) && e["display"] == item["display"]
    ensures forall k :: k in item && k in BulkOptionalKeys ==> e[k] == item[k]
  {
    map["shoppingListId" := Str(listId), "display" := item["display"]]
      + map k | k in item && k in BulkOptionalKeys :: item[k]
  }

  function BulkEntries(listId: string, items: seq<Value>): (r: seq<Value>)
    requires FirstProblem(items, "display", NoDisplay).None?
    ensures |r| == |items|
    ensures forall i :: 0 <= i < |items| ==>
              items[i].Object? && "display" in items[i].fields && r[i] == Object(BulkEntry(listId, items[i].fields))
  {
    seq(|items|, i requires 0 <= i < |items| => Object(BulkEntry(listId, items[i].fields)))
  }

  /** The loop body of bulk create once an item passed its check. */
  method CopyBulkEntry(listId: string, item: map<string, Value>) returns (entry: map<string, Value>)
    requires "display" in item
    ensures entry == BulkEntry(listId, item)
  {
    entry := map["shoppingListId" := Str(listId), "display" := item["display"]];
    if "quantity" in item {
      entry := entry["quantity" := item["quantity"]];
    }
    if "unit" in item {
      entry := entry["unit" := item["unit"]];
    }
    if "note" in item {
      entry := entry["note" := item["note"]];
    }
    if "foodId" in item {
      entry := entry["foodId" := item["foodId"]];
    }
  }

  /** `bulk_create_shopping_list_items(list_id, items)`. */
  function BulkCreateRequest(listId: string, items: Value): (r: Result<Request, Exception>)
    ensures listId == "" ==> r == Failure(EmptyListId)
    ensures listId != "" && !(items.List? && items.items != []) ==> r == Failure(NotItemList)
    ensures listId != "" && items.List? && items.items != [] ==>
              (r.Success? <==> FirstProblem(items.items, "display", NoDisplay).None?)
    ensures listId != "" && items.List? && items.items != [] && FirstProblem(items.items, "display", NoDisplay).Some? ==>
              r == Failure(FirstProblem(items.items, "display", NoDisplay).value)
    ensures r.Success? ==>
              r.value == Request(POST, BulkPath, None, Some(List(BulkEntries(listId, items.items))))
  {
    if listId == "" then Failure(EmptyListId)
    else if !Truthy(items) || !items.List? then Failure(NotItemList)
    else match FirstProblem(items.items, "display", NoDisplay)
      case Some(e) => Failure(e)
      case None => Success(Request(POST, BulkPath, None, Some(List(BulkEntries(listId, items.items)))))
  }

  lemma BulkEntriesAre(listId: string, items: seq<Value>, payload: seq<Value>)
    requires |payload| == |items|
    requires forall i :: 0 <= i < |items| ==>
               ItemProblem(items[i], "display", NoDisplay).None? && payload[i] == Object(BulkEntry(listId, items[i].fields))
    ensures FirstProblem(items, "display", NoDisplay).None? && payload == BulkEntries(listId, items)
  {
  }

  method BulkCreateShoppingListItems(listId: string, items: Value) returns (r: Result<Request, Exception>)
    ensures r == BulkCreateRequest(listId, items)
  {
    if listId == "" {
      return Failure(EmptyListId);
    }
    if !Truthy(items) || !items.List? {
      return Failure(NotItemList);
    }
    var payload: seq<Value> := [];
    for n := 0 to |items.items|
      invariant |payload| == n
      invariant forall i :: 0 <= i < n ==>
                  ItemProblem(items.items[i], "display", NoDisplay).None? &&
                  payload[i] == Object(BulkEntry(listId, items.items[i].fields))
    {
      var item := items.items[n];
      if !item.Object? || !Truthy(GetOrNone(item.fields, "display")) {
        FirstProblemAt(items.items, "display", NoDisplay, n);
        r := Failure(ItemProblem(item, "display", NoDisplay).value);
        assert r == BulkCreateRequest(listId, items);
        return;
      }
      var entry := CopyBulkEntry(listId, item.fields);
      payload := payload + [Object(entry)];
    }
    BulkEntriesAre(listId, items.items, payload);
    r := Success(Request(POST, BulkPath, None, Some(List(payload))));
  }

  /** `bulk_update_shopping_list_items(items)`: the list is sent as given. */
  function BulkUpdateRequest(items: Value): (r: Result<Request, Exception>)
    ensures !(items.List? && items.items != []) ==> r == Failure(NotItemList)
    ensures items.List? && items.items != [] ==> (r.Success? <==> FirstProblem(items.items, "id", NoId).None?)
    ensures items.List? && items.items != [] && FirstProblem(items.items, "id", NoId).Some? ==>
              r == Failure(FirstProblem(items.items, "id", NoId).value)
    ensures r.Success? ==> r.value == Request(PUT, BulkPath, None, Some(items))
  {
    if !Truthy(items) || !items.List? then Failure(NotItemList)
    else match FirstProblem(items.items, "id", NoId)
      case Some(e) => Failure(e)
      case None => Success(Request(PUT, BulkPath, None, Some(items)))
  }

  method BulkUpdateShoppingListItems(items: Value) returns (r: Result<Request, Exception>)
    ensures r == BulkUpdateRequest(items)
  {
    if !Truthy(items) || !items.List? {
      return Failure(NotItemList);
    }
    for n := 0 to |items.items|
      invariant forall i :: 0 <= i < n ==> ItemProblem(items.items[i], "id", NoId).None?
    {
      var item := items.items[n];
      if !item.Object? || !Truthy(GetOrNone(item.fields, "id")) {
        FirstProblemAt(items.items, "id", NoId, n);
        return Failure(ItemProblem(item, "id", NoId).value);
      }
    }
    r := Success(Request(PUT, BulkPath, None, Some(items)));
  }

  /** `bulk_delete_shopping_list_items(item_ids)`: the list is sent as given. */
  function BulkDeleteShoppingListItems(itemIds: Value): (r: Result<Request, Exception>)
    ensures r.Success? <==> itemIds.List? && itemIds.items != []
    ensures r.Failure? ==> r.error == NotIdList
    ensures r.Success? ==> r.value == Request(DELETE, BulkPath, None, Some(itemIds))
  {
    if !Truthy(itemIds) || !itemIds.List? then Failure(NotIdList) else Success(Request(DELETE, BulkPath, None, Some(itemIds)))
  }

  // ---- get_all_shopping_list_items ----

  /** The `param_dict` literal of `get_all_shopping_list_items`. */
  function ItemsQuery(listId: Option<string>, page: Option<int>, perPage: Option<int>, paginationSeed: Option<string>,
                      orderBy: Option<string>, orderDirection: Option<string>, queryFilter: Option<string>)
    : map<string, Value>
  {
    map["shoppingListId" := OfStr(listId), "page" := OfInt(page), "perPage" := OfInt(perPage),
        "paginationSeed" := OfStr(paginationSeed), "orderBy" := OfStr(orderBy),
        "orderDirection" := OfStr(orderDirection), "queryFilter" := OfStr(queryFilter)]
  }

  function GetAllShoppingListItems(listId: Option<string> := None, page: Option<int> := None, perPage: Option<int> := None,
                                   paginationSeed: Option<string> := None, orderBy: Option<string> := None,
                                   orderDirection: Option<string> := None, queryFilter: Option<string> := None)
    : (r: Request)
    ensures r.verb == GET && r.path == ItemsPath && r.body.None? && r.params.Some?
    ensures r.params.value.Keys <= ItemsQuery(listId, page, perPage, paginationSeed, orderBy, orderDirection, queryFilter).Keys
    ensures var q := ItemsQuery(listId, page, perPage, paginationSeed, orderBy, orderDirection, queryFilter);
            forall k :: k in q ==> Mirrors(r.params.value, k, q[k])
  {
    var q := ItemsQuery(listId, page, perPage, paginationSeed, orderBy, orderDirection, queryFilter);
    BuildParamsOfScalars(q);
    Request(GET, ItemsPath, Some(BuildParams(q)), None)
  }
}
