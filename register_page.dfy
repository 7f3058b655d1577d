/**
 * The registration page (src/components/Register.tsx): its submit
 * handler checks the confirmation, then the password length, and only then
 * calls `register`; success alerts and goes to the login page.
 */
module RegisterPage {
  import opened Wrappers
  import opened Http
  import Text
  import Auth

  const Mismatch := "Passwords do not match"
  const TooShort := "Password must be at least 6 characters"
  const Failed := "Registration failed. Please try again."

  /** The client-side checks, in order: the confirmation first, then the
      length (counted in UTF-16 units, as JavaScript's `length`). */
  function Validate(password: string, confirm: string): (e: Option<string>)
    ensures password != confirm ==> e == Some(Mismatch)
    ensures password == confirm && Text.Utf16Length(password) < 6 ==> e == Some(TooShort)
    ensures e == None <==> password == confirm && Text.Utf16Length(password) >= 6
  {
    if password != confirm then Some(Mismatch)
    else if Text.Utf16Length(password) < 6 then Some(TooShort)
    else None
  }

  /** The text alerted after a successful registration. */
  function SuccessAlert(message: Option<Json>): (t: string)
    ensures Truthy(message) ==> t == ToText(message.value)
    ensures !Truthy(message) ==> t == "Registration successful! Please login."
  {
    if Truthy(message) then ToText(message.value) else "Registration successful! Please login."
  }

  /** The page's state and what it has done so far. */
  class RegisterView {
    var error: string
    var loading: bool
    /** The last navigation target. */
    var location: Option<string>
    var alerts: seq<string>
    /** Every request the page caused, in order. */
    var requests: seq<Request>

    constructor ()
      ensures error == "" && !loading && location == None && alerts == [] && requests == []
    {
      error, loading, location, alerts, requests := "", false, None, [], [];
    }

    /** `handleSubmit` with the form's fields and the server's answer. A
        failed check shows its message and sends nothing. Otherwise exactly
        one register request with (name, email, password) is sent; success
        alerts and navigates to "/login", failure shows the error and stays. */
    method Submit(name: string, email: string, password: string, confirm: string, resp: Response)
      modifies this
      ensures Validate(password, confirm).Some? ==>
        && error == Validate(password, confirm).value
        && loading == old(loading) && location == old(location)
        && alerts == old(alerts) && requests == old(requests)
      ensures Validate(password, confirm).None? ==>
        && requests == old(requests) + [Auth.RegisterRequest(name, email, password)]
        && !loading
        && match Auth.RegisterOutcome(resp)
           case Success(m) =>
             error == "" && alerts == old(alerts) + [SuccessAlert(m)] && location == Some("/login")
           case Failure(e) =>
             error == Text.Or(e, Failed) && alerts == old(alerts) && location == old(location)
    {
      error := "";
      var invalid := Validate(password, confirm);
      if invalid.Some? {
        error := invalid.value;
        return;
      }
      loading := true;
      requests := requests + [Auth.RegisterRequest(name, email, password)];
      var result := Auth.RegisterOutcome(resp);
      if result.Success? {
        alerts := alerts + [SuccessAlert(result.message)];
        location := Some("/login");
      } else {
        error := Text.Or(result.error, Failed);
      }
      loading := false;
    }
  }

  /** The length check counts UTF-16 units: three emoji (two units each)
      pass it, while two do not. */
  lemma {:induction false} EmojiPasswords()
    ensures Validate("\U{1F600}\U{1F600}\U{1F600}", "\U{1F600}\U{1F600}\U{1F600}") == None
    ensures Validate("\U{1F600}\U{1F600}", "\U{1F600}\U{1F600}") == Some(TooShort)
  {
    var e := "\U{1F600}";
    assert Text.Utf16Length(e) == 2;
    Text.Utf16LengthAppend(e, e);
    assert e + e == "\U{1F600}\U{1F600}";
    Text.Utf16LengthAppend(e + e, e);
    assert e + e + e == "\U{1F600}\U{1F600}\U{1F600}";
  }

  /** When both checks fail, the mismatch is the one reported. */
  lemma MismatchReportedFirst(password: string, confirm: string)
    requires password != confirm && Text.Utf16Length(password) < 6
    ensures Validate(password, confirm) == Some(Mismatch)
  {
  }
}
