/** src/mealie/mealie_client.py: the parts of the one-file `MealieClient` that are its own.
    Its request builders are the same code as the mixins in src/mealie/ (food.py, recipe.py,
    shopping_list.py), apart from where `ParamBuilder` is imported from, so the modules Food,
    Recipe and ShoppingList model both. */
module Client {
  import opened Wrappers
  import opened Values
  import opened Text
  import opened Exceptions
  import opened Requests

  const EmptyBaseUrl := ValueError("Base URL cannot be empty")
  const EmptyApiKey := ValueError("API key cannot be empty")

  /** The argument checks `MealieClient(base_url, api_key)` makes before it opens a
      connection: the base URL is checked first. */
  function CheckCredentials(baseUrl: string, apiKey: string): (r: Outcome<Exception>)
    ensures r == Pass <==> baseUrl != "" && apiKey != ""
    ensures baseUrl == "" ==> r == Fail(EmptyBaseUrl)
    ensures baseUrl != "" && apiKey == "" ==> r == Fail(EmptyApiKey)
  {
    if baseUrl == "" then Fail(EmptyBaseUrl)
    else if apiKey == "" then Fail(EmptyApiKey)
    else Pass
  }

  /** What an error response offers: `Some(v)` when `response.json()` returns `v`, `None`
      when it raises. */
  type ParsedBody = Option<Value>

  /** The detail an HTTP error reports: the body's "detail" entry when the body is a
      dictionary holding one, the raw text when the body does not parse, and otherwise the
      generic "HTTP Error <status>". */
  function DetailOf(statusCode: int, parsed: ParsedBody, text: string): (d: Value)
    ensures parsed.None? ==> d == Str(text)
    ensures parsed.Some? && parsed.value.Object? && "detail" in parsed.value.fields ==>
              d == parsed.value.fields["detail"]
    ensures parsed.Some? && !(parsed.value.Object? && "detail" in parsed.value.fields) ==>
              d == Str("HTTP Error " + IntToString(statusCode))
  {
    match parsed
    case None => Str(text)
    case Some(v) =>
      if v.Object? && "detail" in v.fields then v.fields["detail"] else Str("HTTP Error " + IntToString(statusCode))
  }

  function ApiErrorPrefix(verb: HttpMethod, url: string): string {
    "API error for " + VerbName(verb) + " " + url + ": "
  }

  /** The `except HTTPStatusError` branch of `_handle_request`: `error_detail` starts as the
      generic text and is replaced step by step; the exception raised carries the status,
      the message and the raw response text. */
  method HttpStatusError(verb: HttpMethod, url: string, statusCode: int, parsed: ParsedBody, text: string)
    returns (e: Exception)
    ensures e == MealieApiError(statusCode, ApiErrorPrefix(verb, url) + PyStr(DetailOf(statusCode, parsed, text)), text)
  {
    var errorDetail := Str("HTTP Error " + IntToString(statusCode));
    if parsed.None? {
      errorDetail := Str(text);
    } else {
      var errorJson := parsed.value;
      if errorJson.Object? && "detail" in errorJson.fields {
        errorDetail := errorJson.fields["detail"];
      }
    }
    var errorMsg := "API error for " + VerbName(verb) + " " + url + ": " + PyStr(errorDetail);
    e := MealieApiError(statusCode, errorMsg, text);
  }

  /** The text of a `MealieApiError` begins with its message. */
  lemma ApiErrorTextStartsWithMessage(code: int, prefix: string, rest: string, responseText: string)
    ensures var m := Message(MealieApiError(code, prefix + rest, responseText));
            |prefix| <= |m| && m[..|prefix|] == prefix
  {
    var m := Message(MealieApiError(code, prefix + rest, responseText));
    assert m == prefix + (rest + " (Status Code: " + IntToString(code) + ")");
  }

  /** The text of the raised error starts by naming the request and ends with a status code
      that reads back as the response's status; an unparsable body is quoted verbatim. */
  lemma HttpStatusErrorText(verb: HttpMethod, url: string, statusCode: int, parsed: ParsedBody, text: string)
    ensures var m := Message(MealieApiError(statusCode, ApiErrorPrefix(verb, url) + PyStr(DetailOf(statusCode, parsed, text)), text));
            StatusCodeIn(m) == Some(statusCode) &&
            |ApiErrorPrefix(verb, url)| <= |m| && m[..|ApiErrorPrefix(verb, url)|] == ApiErrorPrefix(verb, url)
    ensures parsed.None? ==> PyStr(DetailOf(statusCode, parsed, text)) == text
  {
    var detail := PyStr(DetailOf(statusCode, parsed, text));
    ApiErrorCodeRecoverable(statusCode, ApiErrorPrefix(verb, url) + detail, text);
    ApiErrorTextStartsWithMessage(statusCode, ApiErrorPrefix(verb, url), detail, text);
  }
}
