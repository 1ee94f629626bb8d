/**
 * The login page (src/app/login/page.tsx): its form schema, its submit
 * handler, which on success signs the user in, navigates home and writes
 * the session record, and its mount-time redirect.
 */
module Login {
  import opened Wrappers
  import opened Forms
  import Session

  datatype LoginForm = LoginForm(username: string, password: string)

  /** Both fields must be non-empty; there is no other bound. */
  function LoginIssues(f: LoginForm): seq<Issue>
  {
    MinLength(Username, f.username, 1, "Please provide a username") + MinLength(Password, f.password, 1, "Please provide a password")
  }

  /** The form is accepted iff neither field is empty, whatever their lengths. */
  lemma LoginAcceptsIff(f: LoginForm)
    ensures LoginIssues(f) == [] <==> f.username != "" && f.password != ""
  {
  }

  /** Each empty field shows its own message; both empty gives exactly two issues. */
  lemma LoginMessages(f: LoginForm)
    ensures f.username == "" ==> FirstMessage(LoginIssues(f), Username) == Some("Please provide a username")
    ensures f.password == "" ==> FirstMessage(LoginIssues(f), Password) == Some("Please provide a password")
    ensures f.username != "" ==> FirstMessage(LoginIssues(f), Username) == None
    ensures f.password != "" ==> FirstMessage(LoginIssues(f), Password) == None
    ensures f.username == "" && f.password == "" ==> |LoginIssues(f)| == 2
  {
    var u := MinLength(Username, f.username, 1, "Please provide a username");
    var p := MinLength(Password, f.password, 1, "Please provide a password");
    OnConcat(u, p, Username);
    OnConcat(u, p, Password);
    OnKeep(u, Username);
    OnDrop(u, Password);
    OnKeep(p, Password);
    OnDrop(p, Username);
  }

  /** The login request body. */
  datatype LoginBody = LoginBody(username: string, password: string)

  /** The server's answer: the credential, or a failure with its message. */
  datatype LoginResponse = Authenticated(credential: Session.Credential) | Rejected(message: string)

  /** Every field of the page's state. */
  datatype State = State(
    error: string,
    user: Option<Session.Credential>,
    session: Option<string>,
    location: string,
    issues: seq<Issue>)

  class LoginPage {
    var error: string
    var user: Option<Session.Credential>
    var session: Option<string>     // localStorage "session"
    var location: string
    var issues: seq<Issue>          // what the resolver last reported

    function Snapshot(): State
      reads this
    {
      State(error, user, session, location, issues)
    }

    constructor (user: Option<Session.Credential>, session: Option<string>)
      ensures Snapshot() == State("", user, session, "/login", [])
    {
      error := "";
      this.user := user;
      this.session := session;
      location := "/login";
      issues := [];
    }

    /** The mount check: with a stored session, go to /. */
    method Mount()
      modifies this
      ensures Session.HasSession(session) ==> Snapshot() == old(Snapshot()).(location := "/")
      ensures !Session.HasSession(session) ==> Snapshot() == old(Snapshot())
    {
      var target := Session.GuestGate(session);
      if target.Some? {
        location := target.value;
      }
    }

    /** `handleSubmit(submitData)` up to the request: validation, then `error` cleared. */
    method Submit(form: LoginForm) returns (body: Option<LoginBody>)
      modifies this
      ensures body.Some? <==> form.username != "" && form.password != ""
      ensures body.Some? ==>
                body.value == LoginBody(form.username, form.password) &&
                Snapshot() == old(Snapshot()).(issues := [], error := "")
      ensures body.None? ==> Snapshot() == old(Snapshot()).(issues := LoginIssues(form))
    {
      LoginAcceptsIff(form);
      issues := LoginIssues(form);
      if issues != [] {
        return None;
      }
      error := "";
      body := Some(LoginBody(form.username, form.password));
    }

    /**
     * The rest of `submitData`. On success the user becomes the returned
     * credential, the route becomes /, and the stored record is that same
     * credential's JSON, which reads back as it and passes the home gate.
     * On failure only `error` changes, to the server's message.
     */
    method Receive(response: LoginResponse)
      modifies this
      ensures response.Authenticated? ==>
                Snapshot() == old(Snapshot()).(user := Some(response.credential), location := "/",
                                               session := Some(Session.Serialize(response.credential)))
      ensures response.Authenticated? ==>
                Session.ParseCredential(session.value) == user &&
                Session.HomeGate(session) == None
      ensures response.Rejected? ==> Snapshot() == old(Snapshot()).(error := response.message)
    {
      match response
      case Authenticated(credential) =>
        user := Some(credential);
        location := "/";
        session := Some(Session.Serialize(credential));
        Session.SerializeRoundTrip(credential);
      case Rejected(message) =>
        error := message;
    }
  }
}
