/**
 * `api` (src/utils/api.ts): the fetch wrapper the task views use. Each
 * call builds one request against the deployed backend and turns the
 * response into the parsed body or an error.
 */
module Api {
  import opened Wrappers
  import opened Http

  /** The deployed backend; the auth context uses a different base (Auth.AuthBase). */
  const ApiBase := "https://personal-task-manager-backend-mrkg.onrender.com/api"

  /** `headers()`: the JSON content type, plus the stored token verbatim
      (no "Bearer " prefix) as `Authorization` when the token is truthy. */
  function Headers(token: Option<string>): (h: map<string, string>)
    ensures "Content-Type" in h && h["Content-Type"] == "application/json"
    ensures "Authorization" in h <==> token.Some? && token.value != ""
    ensures "Authorization" in h ==> h["Authorization"] == token.value
    ensures h.Keys <= {"Content-Type", "Authorization"}
  {
    var headers := map["Content-Type" := "application/json"];
    if token.Some? && token.value != "" then headers["Authorization" := token.value] else headers
  }

  /** What one call made and what it returned or threw. */
  datatype Exchange = Exchange(request: Request, result: Result<Json, string>)

  /** The error thrown for a non-ok response whose body parsed to `error`:
      `new Error(error.message || fallback)`. */
  function ErrorText(error: Json, fallback: string): (m: string)
    ensures error.JNull? ==> m == NullRead("message")
    ensures !error.JNull? && Truthy(Field(error, "message")) ==> m == ToText(error.fields["message"])
    ensures !error.JNull? && !Truthy(Field(error, "message")) ==> m == fallback
  {
    if error.JNull? then NullRead("message")
    else if Truthy(Field(error, "message")) then ToText(error.fields["message"])
    else fallback
  }

  /** The shared tail of `get`, `post`, `put` and `delete`: an ok response
      yields its parsed body unchanged; a non-ok one throws with the body's
      `message`, else `fallback`; a rejected fetch or a body that does not
      parse throws that error. */
  function Settle(resp: Response, fallback: string): (r: Result<Json, string>)
    ensures r.Ok? <==> resp.Response? && resp.ok && resp.body.Parsed?
    ensures r.Ok? ==> r.value == resp.body.json
    ensures resp.NetworkError? ==> r == Err(resp.reason)
    ensures resp.Response? && resp.body.Malformed? ==> r == Err(resp.body.reason)
    ensures resp.Response? && !resp.ok && resp.body.Parsed? ==> r == Err(ErrorText(resp.body.json, fallback))
  {
    match resp
    case NetworkError(reason) => Err(reason)
    case Response(ok, Malformed(reason)) => Err(reason)
    case Response(ok, Parsed(json)) => if ok then Ok(json) else Err(ErrorText(json, fallback))
  }

  /** `api.get(path)`. */
  function Get(path: string, token: Option<string>, resp: Response): (x: Exchange)
    ensures x.request == Request(ApiBase + path, GET, Headers(token), None)
    ensures x.result == Settle(resp, "Failed to fetch")
  {
    Exchange(Request(ApiBase + path, GET, Headers(token), None), Settle(resp, "Failed to fetch"))
  }

  /** `api.post(path, body)`. */
  function Post(path: string, token: Option<string>, body: Json, resp: Response): (x: Exchange)
    ensures x.request == Request(ApiBase + path, POST, Headers(token), Some(body))
    ensures x.result == Settle(resp, "Failed to create")
  {
    Exchange(Request(ApiBase + path, POST, Headers(token), Some(body)), Settle(resp, "Failed to create"))
  }

  /** `api.put(path, body)`. */
  function Put(path: string, token: Option<string>, body: Json, resp: Response): (x: Exchange)
    ensures x.request == Request(ApiBase + path, PUT, Headers(token), Some(body))
    ensures x.result == Settle(resp, "Failed to update")
  {
    Exchange(Request(ApiBase + path, PUT, Headers(token), Some(body)), Settle(resp, "Failed to update"))
  }

  /** `api.delete(path)`. */
  function Delete(path: string, token: Option<string>, resp: Response): (x: Exchange)
    ensures x.request == Request(ApiBase + path, DELETE, Headers(token), None)
    ensures x.result == Settle(resp, "Failed to delete")
  {
    Exchange(Request(ApiBase + path, DELETE, Headers(token), None), Settle(resp, "Failed to delete"))
  }

  /** With a non-empty token stored, every request `api` builds is sent to
      `ApiBase + path` with the JSON content type and the token verbatim. */
  lemma RequestsCarryToken(path: string, token: Option<string>, body: Json, resp: Response)
    requires token.Some? && token.value != ""
    ensures forall q :: q in {Get(path, token, resp).request, Post(path, token, body, resp).request,
                              Put(path, token, body, resp).request, Delete(path, token, resp).request} ==>
      q.url == ApiBase + path && q.headers["Content-Type"] == "application/json"
      && q.headers["Authorization"] == token.value
  {
  }

  /** With no token stored, or an empty one, no request `api` builds carries
      an `Authorization` header; the request is still sent. */
  lemma RequestsOmitMissingToken(path: string, token: Option<string>, body: Json, resp: Response)
    requires token.None? || token.value == ""
    ensures forall q :: q in {Get(path, token, resp).request, Post(path, token, body, resp).request,
                              Put(path, token, body, resp).request, Delete(path, token, resp).request} ==>
      q.url == ApiBase + path && q.headers == map["Content-Type" := "application/json"]
  {
  }
}
