/**
 * The login page (src/components/Login.tsx): its submit handler calls
 * `login` with no client-side checks and goes to the dashboard on success.
 */
module LoginPage {
  import opened Wrappers
  import opened Http
  import Auth
  import Text

  /** The error shown when `login` fails with an empty message. */
  const Failed := "Login failed. Please check your credentials."

  /** The page's state and what it has done so far. */
  class LoginView {
    var error: string
    var loading: bool
    /** The last navigation target. */
    var location: Option<string>
    /** Every request the page caused, in order. */
    var requests: seq<Request>

    constructor ()
      ensures error == "" && !loading && location == None && requests == []
    {
      error, loading, location, requests := "", false, None, [];
    }

    /** `handleSubmit`: exactly one login request; on success the session
        is authenticated and the page navigates to "/dashboard"; on failure
        it shows the error and stays. `loading` is false afterwards. */
    method Submit(session: Auth.Session, email: string, password: string, resp: Response)
      modifies this, session
      ensures requests == old(requests) + [Auth.LoginRequest(email, password)]
      ensures !loading
      ensures Auth.LoginOutcome(resp).Granted? ==>
        error == "" && location == Some("/dashboard") && session.IsAuthenticated()
        && session.token == Some(Auth.LoginOutcome(resp).token)
        && session.user == Some(Auth.User(Auth.DisplayName(email), email))
      ensures Auth.LoginOutcome(resp).Denied? ==>
        && error == Text.Or(Auth.LoginOutcome(resp).error, Failed) && location == old(location)
        && session.token == old(session.token) && session.user == old(session.user)
    {
      error := "";
      loading := true;
      var request, result := session.Login(email, password, resp);
      requests := requests + [request];
      if result.Success? {
        location := Some("/dashboard");
      } else {
        error := Text.Or(result.error, Failed);
      }
      loading := false;
    }
  }
}
