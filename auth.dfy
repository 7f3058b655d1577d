/**
 * The auth context (src/contexts/AuthContext.tsx): the session state
 * (an in-memory user and the persisted `"token"` slot of local storage)
 * and its operations `register`, `login`, `logout` and `isAuthenticated`.
 * Both calls talk to the local backend with no token attached, and every
 * failure, thrown or not, comes back as a failed result.
 */
module Auth {
  import opened Wrappers
  import opened Http
  import Text
  import Api

  /** The backend the auth context talks to (not the one `api` uses). */
  const AuthBase := "http://localhost:5000/api"

  /** The only header either auth call sends. */
  const JsonContent: map<string, string> := map["Content-Type" := "application/json"]

  /** The user the context keeps in memory after a login. */
  datatype User = User(name: string, email: string)

  /** What `register` and `login` resolve to: `{success: true, message}`
      (the server's `message`, possibly undefined) or `{success: false, error}`. */
  datatype AuthResult = Success(message: Option<Json>) | Failure(error: string)

  /** The request `register(name, email, password)` sends. */
  function RegisterRequest(name: string, email: string, password: string): (q: Request)
    ensures q.url == AuthBase + "/users/register" && q.verb == POST
    ensures q.headers == JsonContent && "Authorization" !in q.headers
    ensures q.body == Some(JObj(map["name" := JStr(name), "email" := JStr(email), "password" := JStr(password)]))
  {
    Request(AuthBase + "/users/register", POST, JsonContent,
            Some(JObj(map["name" := JStr(name), "email" := JStr(email), "password" := JStr(password)])))
  }

  /** The request `login(email, password)` sends. */
  function LoginRequest(email: string, password: string): (q: Request)
    ensures q.url == AuthBase + "/users/login" && q.verb == POST
    ensures q.headers == JsonContent && "Authorization" !in q.headers
    ensures q.body == Some(JObj(map["email" := JStr(email), "password" := JStr(password)]))
  {
    Request(AuthBase + "/users/login", POST, JsonContent,
            Some(JObj(map["email" := JStr(email), "password" := JStr(password)])))
  }

  /** The message of `new Error(data.message || data.error || fallback)`
      for a body `data` that is not `null`. */
  function ServerError(data: Json, fallback: string): (m: string)
    requires !data.JNull?
    ensures Truthy(Field(data, "message")) ==> m == ToText(data.fields["message"])
    ensures !Truthy(Field(data, "message")) && Truthy(Field(data, "error")) ==> m == ToText(data.fields["error"])
    ensures !Truthy(Field(data, "message")) && !Truthy(Field(data, "error")) ==> m == fallback
  {
    if Truthy(Field(data, "message")) then ToText(data.fields["message"])
    else if Truthy(Field(data, "error")) then ToText(data.fields["error"])
    else fallback
  }

  /** What `register` resolves to for the server's response. It succeeds
      exactly on an ok response whose body parsed to a non-null value, and
      then passes the server's `message` through; every other case is a
      failure carrying the message of the error that was thrown. */
  function RegisterOutcome(resp: Response): (r: AuthResult)
    ensures r.Success? <==> resp.Response? && resp.ok && resp.body.Parsed? && !resp.body.json.JNull?
    ensures r.Success? ==> r.message == Field(resp.body.json, "message")
    ensures resp.NetworkError? ==> r == Failure(resp.reason)
    ensures resp.Response? && resp.body.Malformed? ==> r == Failure(resp.body.reason)
    ensures resp.Response? && resp.body == Parsed(JNull) ==> r == Failure(NullRead("message"))
    ensures resp.Response? && !resp.ok && resp.body.Parsed? && !resp.body.json.JNull? ==>
      r == Failure(ServerError(resp.body.json, "Registration failed"))
  {
    match resp
    case NetworkError(reason) => Failure(reason)
    case Response(_, Malformed(reason)) => Failure(reason)
    case Response(ok, Parsed(data)) =>
      if data.JNull? then Failure(NullRead("message"))
      else if !ok then Failure(ServerError(data, "Registration failed"))
      else Success(Field(data, "message"))
  }

  /** How `login` decides: keep a token, or fail with a message. */
  datatype LoginDecision = Granted(token: string, message: Option<Json>) | Denied(error: string)

  /** What `login` decides for the server's response. It is granted exactly
      on an ok response whose `token` is truthy, and then keeps the token's
      text; an ok response without a token is denied with "No token
      received from server"; a non-ok one with the server's message. */
  function LoginOutcome(resp: Response): (d: LoginDecision)
    ensures d.Granted? <==> resp.Response? && resp.ok && resp.body.Parsed? && Truthy(Field(resp.body.json, "token"))
    ensures d.Granted? ==> d.token == ToText(resp.body.json.fields["token"])
    ensures d.Granted? ==> d.message == Field(resp.body.json, "message")
    ensures resp.NetworkError? ==> d == Denied(resp.reason)
    ensures resp.Response? && resp.body.Malformed? ==> d == Denied(resp.body.reason)
    ensures resp.Response? && resp.body == Parsed(JNull) ==>
      d == Denied(NullRead(if resp.ok then "token" else "message"))
    ensures (resp.Response? && resp.ok && resp.body.Parsed? && !resp.body.json.JNull? &&
             !Truthy(Field(resp.body.json, "token"))) ==> d == Denied("No token received from server")
    ensures resp.Response? && !resp.ok && resp.body.Parsed? && !resp.body.json.JNull? ==>
      d == Denied(ServerError(resp.body.json, "Login failed"))
  {
    match resp
    case NetworkError(reason) => Denied(reason)
    case Response(_, Malformed(reason)) => Denied(reason)
    case Response(ok, Parsed(data)) =>
      if !ok then
        if data.JNull? then Denied(NullRead("message")) else Denied(ServerError(data, "Login failed"))
      else if data.JNull? then Denied(NullRead("token"))
      else if !Truthy(Field(data, "token")) then Denied("No token received from server")
      else Granted(ToText(data.fields["token"]), Field(data, "message"))
  }

  /** The display name `login` derives: the part of the email before the first '@'. */
  function DisplayName(email: string): (name: string)
    ensures '@' !in name
    ensures |name| <= |email| && email == name + email[|name|..]
    ensures |name| < |email| ==> email[|name|] == '@'
  {
    Text.BeforeFirst(email, '@')
  }

  /** The session held by the auth provider. */
  class Session {
    /** The in-memory `user`; None is `null`. */
    var user: Option<User>
    /** The `"token"` slot of local storage; None when the key is absent. */
    var token: Option<string>

    /** A page load: no user in memory, whatever token storage kept. */
    constructor (stored: Option<string>)
      ensures user == None && token == stored
      ensures IsAuthenticated() <==> stored.Some? && stored.value != ""
    {
      user := None;
      token := stored;
    }

    /** `isAuthenticated()`: a user is held, or the stored token is truthy. */
    predicate IsAuthenticated()
      reads this
      ensures IsAuthenticated() <==> user.Some? || (token.Some? && Truthy(Some(JStr(token.value))))
    {
      user.Some? || (token.Some? && token.value != "")
    }

    /** `login(email, password)`: on a granted response the token slot holds
        exactly the server's token and the user is named after the email's
        prefix; on any failure neither the slot nor the user changes. */
    method Login(email: string, password: string, resp: Response) returns (request: Request, result: AuthResult)
      modifies this
      ensures request == LoginRequest(email, password)
      ensures LoginOutcome(resp).Granted? ==>
        && token == Some(LoginOutcome(resp).token)
        && user == Some(User(DisplayName(email), email))
        && result == Success(LoginOutcome(resp).message)
      ensures LoginOutcome(resp).Denied? ==>
        token == old(token) && user == old(user) && result == Failure(LoginOutcome(resp).error)
      ensures result.Success? ==> IsAuthenticated()
    {
      request := LoginRequest(email, password);
      match LoginOutcome(resp)
      case Denied(e) =>
        result := Failure(e);
      case Granted(t, m) =>
        token := Some(t);
        user := Some(User(DisplayName(email), email));
        result := Success(m);
    }

    /** `logout()`: the token slot is emptied and the user dropped. The new
        state does not depend on the old one, so a second call changes nothing. */
    method Logout()
      modifies this
      ensures user == None && token == None
      ensures !IsAuthenticated()
    {
      token := None;
      user := None;
    }
  }

  /** A string token is kept verbatim: the stored text is the token itself. */
  lemma GrantedTokenIsVerbatim(resp: Response, t: string)
    requires resp.Response? && resp.ok && resp.body.Parsed? && resp.body.json.JObj?
    requires "token" in resp.body.json.fields && resp.body.json.fields["token"] == JStr(t)
    requires t != ""
    ensures LoginOutcome(resp) == Granted(t, Field(resp.body.json, "message"))
  {
  }

  /** Logging in as a@b.com with the answer {message: "Login successful",
      token: "abc123"} stores "abc123" and names the user "a". */
  lemma {:induction false} LoginScenario()
    ensures var resp := Response(true, Parsed(JObj(map["message" := JStr("Login successful"), "token" := JStr("abc123")])));
            LoginOutcome(resp) == Granted("abc123", Some(JStr("Login successful")))
    ensures DisplayName("a@b.com") == "a"
  {
    var email := "a@b.com";
    assert email[1] == '@';
    assert DisplayName(email) == email[..1];
  }

  /** After a granted login, the token `api` attaches to every request is
      exactly the text the session stored, with no prefix; a token whose
      text is empty (a truthy non-string such as `[]`) is not sent at all. */
  lemma LoginTokenIsSentVerbatim(resp: Response, path: string)
    requires LoginOutcome(resp).Granted?
    ensures var t := LoginOutcome(resp).token;
            var q := Api.Get(path, Some(t), resp).request;
      && (t != "" ==> q.headers["Authorization"] == t)
      && (t == "" ==> "Authorization" !in q.headers)
  {
  }
}
