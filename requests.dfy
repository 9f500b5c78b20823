/** What `_handle_request(method, url, params=..., json=...)` is handed. The transport that
    would send it is not modelled: a request is the record of one such call. */
module Requests {
  import opened Wrappers
  import opened Values

  datatype HttpMethod = GET | POST | PUT | DELETE

  /** `params` and `body` are `None` when the keyword argument is not passed. */
  datatype Request = Request(verb: HttpMethod, path: string, params: Option<map<string, Value>>, body: Option<Value>)

  /** A call with neither `params=` nor `json=`. */
  function Bare(verb: HttpMethod, path: string): (r: Request)
    ensures r.verb == verb && r.path == path && r.params.None? && r.body.None?
  {
    Request(verb, path, None, None)
  }

  /** The method name as `_handle_request` receives it. */
  function VerbName(m: HttpMethod): (s: string)
    ensures |s| > 0
  {
    match m
    case GET => "GET"
    case POST => "POST"
    case PUT => "PUT"
    case DELETE => "DELETE"
  }

  /** Distinct methods have distinct names. */
  lemma VerbNameInjective(a: HttpMethod, b: HttpMethod)
    ensures VerbName(a) == VerbName(b) <==> a == b
  {
    if a != b {
      assert VerbName(a)[0] != VerbName(b)[0] || VerbName(a)[1] != VerbName(b)[1];
    }
  }
}
