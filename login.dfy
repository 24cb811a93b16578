/** The admin login form: the two fields, the error line, the checks made
    before any request, the body sent, and what each reply of the login
    endpoint does to the form and to the stored session. */
module AdminLogin {
  import opened Wrappers
  import opened Text

  /** The two named inputs of the form. */
  datatype Field = EmailField | PasswordField

  /** The JSON body posted to the login endpoint. */
  datatype Credentials = Credentials(email: string, password: string)

  /** How the request settles: a resolved reply with its status and the
      `api-key` header ("" when absent), or a rejected one with the status
      of its error response (none on a network error) and the server's
      `message` ("" when absent). */
  datatype Reply =
    | Resolved(status: int, apiKey: string)
    | Rejected(errorStatus: Option<int>, serverMessage: string)

  const FillInAllFields: string := "Please fill in all fields"
  const InvalidEmail: string := "Please enter a valid email address"
  const NoToken: string := "Authentication failed. No token received."

  /** `email.includes("@")`. */
  predicate HasAt(email: string) {
    Includes(email, "@")
  }

  /** Looking for "@" as a substring is looking for the character. */
  lemma HasAtIsMember(email: string)
    ensures HasAt(email) <==> '@' in email
  {
    if '@' in email {
      var j :| 0 <= j < |email| && email[j] == '@';
      assert "@" <= email[j..];
    }
    if HasAt(email) {
      var i :| 0 <= i <= |email| && "@" <= email[i..];
      assert email[i] == '@';
    }
  }

  /** The checks made before any request: a blank field first, then a
      missing "@"; `None` lets the request go ahead. */
  function Validate(email: string, password: string): (r: Option<string>)
    ensures r == Some(FillInAllFields) <==> Trim(email) == "" || Trim(password) == ""
    ensures r == Some(InvalidEmail) <==> Trim(email) != "" && Trim(password) != "" && !HasAt(email)
    ensures r == None <==> Trim(email) != "" && Trim(password) != "" && HasAt(email)
  {
    if Trim(email) == "" || Trim(password) == "" then Some(FillInAllFields)
    else if !HasAt(email) then Some(InvalidEmail)
    else None
  }

  /** The body: the trimmed email and the password exactly as typed. The
      email sent is the tidy block of the typed one between its leading and
      trailing whitespace, which determines it (`TrimUnique`). */
  function RequestBody(email: string, password: string): (c: Credentials)
    ensures c.password == password
    ensures Tidy(c.email) && |c.email| <= |email|
    ensures exists i ::
              0 <= i <= |email| - |c.email| && AllSpace(email[..i])
              && c.email == email[i..i + |c.email|] && AllSpace(email[i + |c.email|..])
  {
    var lead := LeadingSpaces(email);
    assert 0 <= lead <= |email| - |Trim(email)|;
    Credentials(Trim(email), password)
  }

  /** Trimming keeps every character that is not whitespace. */
  lemma TrimKeeps(s: string, c: char)
    requires c in s && !IsSpace(c)
    ensures c in Trim(s)
  {
    var t := Trim(s);
    var j :| 0 <= j < |s| && s[j] == c;
    KeptBetweenSpaces(s, t, LeadingSpaces(s), j);
  }

  lemma KeptBetweenSpaces(s: string, t: string, i: nat, j: nat)
    requires i + |t| <= |s| && t == s[i..i + |t|]
    requires AllSpace(s[..i]) && AllSpace(s[i + |t|..])
    requires j < |s| && !IsSpace(s[j])
    ensures s[j] in t
  {
    if i <= j < i + |t| {
      assert t[j - i] == s[j];
    }
  }

  /** A body that passed the checks carries a non-empty email that still
      contains "@", since trimming only removes whitespace. */
  lemma SentEmailIsPlausible(email: string, password: string)
    requires Validate(email, password) == None
    ensures RequestBody(email, password).email != ""
    ensures HasAt(RequestBody(email, password).email)
    ensures Trim(RequestBody(email, password).password) != ""
  {
    HasAtIsMember(email);
    TrimKeeps(email, '@');
    HasAtIsMember(Trim(email));
  }

  /** The message for a rejected request: a fixed one per status, the
      server's own message preferred for 404, and a fallback for every
      other status or for no response at all. */
  function FailureMessage(status: Option<int>, serverMessage: string): (m: string)
    ensures m != ""
    ensures status == Some(404) ==> m == OrElse(serverMessage, "Email or password not found")
  {
    match status
    case Some(401) => "Invalid email or password"
    case Some(404) => OrElse(serverMessage, "Email or password not found")
    case Some(403) => "Access denied. Admin privileges required."
    case Some(429) => "Too many login attempts. Please try again later."
    case Some(500) => "Server error. Please try again later."
    case _ => "Login failed. Please try again."
  }

  /** Apart from 404 the message does not depend on what the server said,
      and it names the status it stands for. */
  lemma FailureMessageCases(status: Option<int>, a: string, b: string)
    ensures status != Some(404) ==> FailureMessage(status, a) == FailureMessage(status, b)
    ensures status == Some(401) ==> FailureMessage(status, a) == "Invalid email or password"
    ensures status == Some(403) ==> FailureMessage(status, a) == "Access denied. Admin privileges required."
    ensures status == Some(429) ==> FailureMessage(status, a) == "Too many login attempts. Please try again later."
    ensures status == Some(500) ==> FailureMessage(status, a) == "Server error. Please try again later."
    ensures status !in {Some(401), Some(403), Some(404), Some(429), Some(500)} ==> FailureMessage(status, a) == "Login failed. Please try again."
  {
  }

  /** A failed request never reads like a failed check, so the form tells
      a refused login from a form that was not sent. */
  lemma FailureIsNotValidation(status: Option<int>, serverMessage: string)
    requires serverMessage != FillInAllFields && serverMessage != InvalidEmail && serverMessage != NoToken
    ensures FailureMessage(status, serverMessage) != FillInAllFields
    ensures FailureMessage(status, serverMessage) != InvalidEmail
    ensures FailureMessage(status, serverMessage) != NoToken
  {
  }

  /** The form's state and the session it stores in `localStorage`. */
  class LoginForm {
    var email: string
    var password: string
    var error: string
    var loading: bool
    /** `adminToken`, stored from the `api-key` header. */
    var storedToken: Option<string>
    /** The email stored as `adminUser` beside the token. */
    var storedUser: Option<string>
    /** Whether the form moved on to the dashboard. */
    var navigated: bool

    /** A session is stored only with a token, and only together with the
        user it belongs to. */
    predicate Valid()
      reads this
    {
      (storedToken.Some? <==> storedUser.Some?)
      && (storedToken.Some? ==> storedToken.value != "")
      && (navigated ==> storedToken.Some?)
    }

    constructor ()
      ensures email == "" && password == "" && error == ""
      ensures !loading && storedToken == None && storedUser == None && !navigated
      ensures Valid()
    {
      email := "";
      password := "";
      error := "";
      loading := false;
      storedToken := None;
      storedUser := None;
      navigated := false;
    }

    /** `handleInputChange`: the named field takes the typed value, the
        other keeps its own, and any error is cleared. */
    method InputChange(field: Field, value: string)
      modifies this`email, this`password, this`error
      ensures field == EmailField ==> email == value && password == old(password)
      ensures field == PasswordField ==> password == value && email == old(email)
      ensures error == ""
    {
      match field {
        case EmailField => email := value;
        case PasswordField => password := value;
      }
      if error != "" {
        error := "";
      }
    }

    /** The synchronous part of `handleSubmit`: a failed check sets its
        message and sends nothing; otherwise the error is cleared, the form
        is busy, and the body to post is returned. */
    method BeginSubmit() returns (request: Option<Credentials>)
      modifies this`error, this`loading
      ensures Validate(email, password).Some? ==>
        request == None && error == Validate(email, password).value && loading == old(loading)
      ensures Validate(email, password) == None ==>
        request == Some(RequestBody(email, password)) && error == "" && loading
    {
      var check := Validate(email, password);
      if check.Some? {
        error := check.value;
        request := None;
        return;
      }
      loading := true;
      error := "";
      request := Some(RequestBody(email, password));
    }

    /** The rest of `handleSubmit` once the request settles. A 200 reply
        with a token stores the session and moves on; one without a token
        sets the no-token error; any other resolved status changes nothing
        but the busy flag; a rejected request sets its failure message. */
    method Complete(reply: Reply)
      requires Valid()
      modifies this`error, this`loading, this`storedToken, this`storedUser, this`navigated
      ensures !loading && Valid()
      ensures reply.Resolved? && reply.status == 200 && reply.apiKey != "" ==>
        storedToken == Some(reply.apiKey) && storedUser == Some(email) && navigated && error == old(error)
      ensures reply.Resolved? && reply.status == 200 && reply.apiKey == "" ==>
        error == NoToken && storedToken == old(storedToken) && storedUser == old(storedUser) && navigated == old(navigated)
      ensures reply.Resolved? && reply.status != 200 ==>
        error == old(error) && storedToken == old(storedToken) && storedUser == old(storedUser) && navigated == old(navigated)
      ensures reply.Rejected? ==>
        error == FailureMessage(reply.errorStatus, reply.serverMessage)
        && storedToken == old(storedToken) && storedUser == old(storedUser) && navigated == old(navigated)
    {
      match reply {
        case Resolved(status, apiKey) =>
          if status == 200 {
            if apiKey != "" {
              storedToken := Some(apiKey);
              storedUser := Some(email);
              navigated := true;
            } else {
              error := NoToken;
            }
          }
        case Rejected(errorStatus, serverMessage) =>
          error := FailureMessage(errorStatus, serverMessage);
      }
      loading := false;
    }
  }
}
