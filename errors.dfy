/** src/errors.py: the JSON envelope every tool returns instead of raising. */
module Errors {
  import opened Wrappers
  import opened Values

  /** `format_error_response(msg)`, before `json.dumps`: `{"success": False, "error": msg}`. */
  function ErrorResponse(msg: string): (v: Value)
    ensures v.Object? && v.fields.Keys == {"success", "error"}
    ensures v.fields["success"] == Bool(false) && v.fields["error"] == Str(msg)
  {
    Object(map["success" := Bool(false), "error" := Str(msg)])
  }

  /** What a client reads from an envelope: the message of a failure, or nothing when the
      value is not a failure envelope. */
  function ErrorMessageOf(v: Value): (r: Option<string>)
    ensures r.Some? <==> v.Object? && "success" in v.fields && v.fields["success"] == Bool(false) &&
                          "error" in v.fields && v.fields["error"].Str?
  {
    if v.Object? && "success" in v.fields && v.fields["success"] == Bool(false) &&
       "error" in v.fields && v.fields["error"].Str?
    then Some(v.fields["error"].s)
    else None
  }

  /** The message can be read back from the envelope verbatim. */
  lemma ErrorMessageRoundTrip(msg: string)
    ensures ErrorMessageOf(ErrorResponse(msg)) == Some(msg)
  {
  }

  /** Different messages give different envelopes. */
  lemma ErrorResponseInjective(a: string, b: string)
    ensures ErrorResponse(a) == ErrorResponse(b) <==> a == b
  {
    if ErrorResponse(a) == ErrorResponse(b) {
      ErrorMessageRoundTrip(a);
      ErrorMessageRoundTrip(b);
    }
  }
}
