/**
 * The signup page (src/app/signup/page.tsx): its form schema, the request
 * it sends, the `error` / `success` state its submit handler moves, and its
 * mount-time redirect.
 */
module Signup {
  import opened Wrappers
  import opened Forms
  import Session

  datatype SignupForm = SignupForm(username: string, password: string, cfrmPassword: string)

  const Mismatch := "Passwords do not match"

  function UsernameIssues(u: string): (issues: seq<Issue>)
    ensures forall x :: x in issues ==> x.path == Username
  {
    MinLength(Username, u, 1, "Please provide a username") + MinLength(Username, u, 6, AtLeastSix) + MaxLength(Username, u, 75)
  }

  function PasswordIssues(p: string): (issues: seq<Issue>)
    ensures forall x :: x in issues ==> x.path == Password
  {
    MinLength(Password, p, 1, "Please provide a password") + MinLength(Password, p, 6, AtLeastSix) + MaxLength(Password, p, 100)
  }

  function CfrmIssues(c: string): (issues: seq<Issue>)
    ensures forall x :: x in issues ==> x.path == CfrmPassword
  {
    MinLength(CfrmPassword, c, 1, "Please provide an input") + MinLength(CfrmPassword, c, 6, AtLeastSix) + MaxLength(CfrmPassword, c, 100)
  }

  /** The refinement: a mismatch is reported on the confirmation's path. */
  function MatchIssues(f: SignupForm): (issues: seq<Issue>)
    ensures forall x :: x in issues ==> x.path == CfrmPassword
  {
    if f.password == f.cfrmPassword then [] else [Issue(CfrmPassword, Mismatch)]
  }

  /** Every issue the signup schema reports, in the order zod finds them. */
  function SignupIssues(f: SignupForm): seq<Issue>
  {
    UsernameIssues(f.username) + PasswordIssues(f.password) + CfrmIssues(f.cfrmPassword) + MatchIssues(f)
  }

  lemma UsernamePath(f: SignupForm)
    ensures On(SignupIssues(f), Username) == UsernameIssues(f.username)
  {
    var u, p, c, m := UsernameIssues(f.username), PasswordIssues(f.password), CfrmIssues(f.cfrmPassword), MatchIssues(f);
    assert SignupIssues(f) == [] + u + (p + c + m);
    OnOwnRun([], u, p + c + m, Username);
  }

  lemma PasswordPath(f: SignupForm)
    ensures On(SignupIssues(f), Password) == PasswordIssues(f.password)
  {
    var u, p, c, m := UsernameIssues(f.username), PasswordIssues(f.password), CfrmIssues(f.cfrmPassword), MatchIssues(f);
    assert SignupIssues(f) == u + p + (c + m);
    OnOwnRun(u, p, c + m, Password);
  }

  lemma CfrmPasswordPath(f: SignupForm)
    ensures On(SignupIssues(f), CfrmPassword) == CfrmIssues(f.cfrmPassword) + MatchIssues(f)
  {
    var u, p, c, m := UsernameIssues(f.username), PasswordIssues(f.password), CfrmIssues(f.cfrmPassword), MatchIssues(f);
    assert SignupIssues(f) == (u + p) + (c + m) + [];
    OnOwnRun(u + p, c + m, [], CfrmPassword);
  }

  /** What each field's path collects. */
  lemma IssuesByField(f: SignupForm)
    ensures On(SignupIssues(f), Username) == UsernameIssues(f.username)
    ensures On(SignupIssues(f), Password) == PasswordIssues(f.password)
    ensures On(SignupIssues(f), CfrmPassword) == CfrmIssues(f.cfrmPassword) + MatchIssues(f)
  {
    UsernamePath(f);
    PasswordPath(f);
    CfrmPasswordPath(f);
  }

  /** The form is accepted iff all three length ranges hold and the two passwords are equal. */
  lemma SignupAcceptsIff(f: SignupForm)
    ensures SignupIssues(f) == [] <==>
              6 <= |f.username| <= 75 && 6 <= |f.password| <= 100 && 6 <= |f.cfrmPassword| <= 100 &&
              f.password == f.cfrmPassword
  {
  }

  /**
   * Per field: the username is clean iff 6 <= length <= 75, the password iff
   * 6 <= length <= 100, the confirmation iff 6 <= length <= 100 and it
   * equals the password.
   */
  lemma FieldVerdicts(f: SignupForm)
    ensures On(SignupIssues(f), Username) == [] <==> 6 <= |f.username| <= 75
    ensures On(SignupIssues(f), Password) == [] <==> 6 <= |f.password| <= 100
    ensures On(SignupIssues(f), CfrmPassword) == [] <==>
              6 <= |f.cfrmPassword| <= 100 && f.password == f.cfrmPassword
  {
    IssuesByField(f);
  }

  /** An empty field shows its own "Please provide ..." message, the first check declared. */
  lemma EmptyFieldMessages(f: SignupForm)
    ensures f.username == "" ==> FirstMessage(SignupIssues(f), Username) == Some("Please provide a username")
    ensures f.password == "" ==> FirstMessage(SignupIssues(f), Password) == Some("Please provide a password")
    ensures f.cfrmPassword == "" ==> FirstMessage(SignupIssues(f), CfrmPassword) == Some("Please provide an input")
  {
    IssuesByField(f);
  }

  /** A length from 1 to 5 fails only the six-character minimum among the length checks. */
  lemma ShortFieldMessages(f: SignupForm)
    ensures 1 <= |f.username| <= 5 ==> On(SignupIssues(f), Username) == [Issue(Username, AtLeastSix)]
    ensures 1 <= |f.password| <= 5 ==> On(SignupIssues(f), Password) == [Issue(Password, AtLeastSix)]
    ensures 1 <= |f.cfrmPassword| <= 5 ==>
              On(SignupIssues(f), CfrmPassword) == [Issue(CfrmPassword, AtLeastSix)] + MatchIssues(f) &&
              FirstMessage(SignupIssues(f), CfrmPassword) == Some(AtLeastSix)
  {
    UsernamePath(f);
    PasswordPath(f);
    CfrmPasswordPath(f);
    if 1 <= |f.cfrmPassword| <= 5 {
      assert CfrmIssues(f.cfrmPassword) == [Issue(CfrmPassword, AtLeastSix)];
    }
  }

  /** Too long a field shows zod's default maximum message. */
  lemma LongFieldMessages(f: SignupForm)
    ensures |f.username| > 75 ==> FirstMessage(SignupIssues(f), Username) == Some(AtMostMessage(75))
    ensures |f.password| > 100 ==> FirstMessage(SignupIssues(f), Password) == Some(AtMostMessage(100))
    ensures |f.cfrmPassword| > 100 ==> FirstMessage(SignupIssues(f), CfrmPassword) == Some(AtMostMessage(100))
  {
    IssuesByField(f);
  }

  /** A mismatch is reported on the confirmation, and is its message once its length is in range. */
  lemma MismatchOnConfirmation(f: SignupForm)
    requires f.password != f.cfrmPassword
    ensures Issue(CfrmPassword, Mismatch) in On(SignupIssues(f), CfrmPassword)
    ensures 6 <= |f.cfrmPassword| <= 100 ==> FirstMessage(SignupIssues(f), CfrmPassword) == Some(Mismatch)
  {
    IssuesByField(f);
    var on := On(SignupIssues(f), CfrmPassword);
    assert on[|on| - 1] == Issue(CfrmPassword, Mismatch);
  }

  /**
   * The password field never shows the mismatch: what it reports depends
   * on the password alone, whatever the confirmation.
   */
  lemma MismatchNeverOnPassword(f: SignupForm, other: string)
    ensures forall x :: x in On(SignupIssues(f), Password) ==> x.message != Mismatch
    ensures On(SignupIssues(f), Password) == On(SignupIssues(f.(cfrmPassword := other)), Password)
  {
    IssuesByField(f);
    IssuesByField(f.(cfrmPassword := other));
    var p := f.password;
    assert |Mismatch| == 22;
    assert |AtLeastSix| > 22 && |"Please provide a password"| > 22 && |AtMostMessage(100)| > 22;
    assert PasswordIssues(p) == MinLength(Password, p, 1, "Please provide a password") + MinLength(Password, p, 6, AtLeastSix) + MaxLength(Password, p, 100);
  }

  /** The sign-up request body: the confirmation is not part of it. */
  datatype SignupBody = SignupBody(username: string, password: string)

  /** The server's answer: ok, or a failure with its message. */
  datatype SignupResponse = Created | Failed(message: string)

  // ---------------------------------------------------------------------
  // The mount-time redirect

  datatype MountOutcome = Stay | Redirect(target: string) | RouterFailure

  /**
   * The mount effect as written: it calls `replace` on the router singleton
   * imported from "next/router", which the app router never mounts, so the
   * call fails instead of navigating.
   */
  function MountAsWritten(stored: Option<string>): (outcome: MountOutcome)
    ensures outcome.Redirect? ==> false
    ensures outcome == RouterFailure <==> Session.HasSession(stored)
  {
    if Session.HasSession(stored) then RouterFailure else Stay
  }

  /** With a stored session the intended redirect to / is missed. */
  lemma MountRedirectMissed()
    ensures MountAsWritten(Some("{}")) == RouterFailure
    ensures Session.GuestGate(Some("{}")) == Some("/")
  {
  }

  /** Every field of the page's state. */
  datatype State = State(error: string, success: bool, issues: seq<Issue>, location: string)

  class SignupPage {
    var error: string
    var success: bool
    var issues: seq<Issue>      // what the resolver last reported
    var location: string

    function Snapshot(): State
      reads this
    {
      State(error, success, issues, location)
    }

    constructor ()
      ensures Snapshot() == State("", false, [], "/signup")
    {
      error := "";
      success := false;
      issues := [];
      location := "/signup";
    }

    /** The intended mount check: with a stored session, go to /. */
    method Mount(stored: Option<string>)
      modifies this
      ensures Session.HasSession(stored) ==> Snapshot() == old(Snapshot()).(location := "/")
      ensures !Session.HasSession(stored) ==> Snapshot() == old(Snapshot())
    {
      var target := Session.GuestGate(stored);
      if target.Some? {
        location := target.value;
      }
    }

    /**
     * `handleSubmit(submitData)` up to the request: validation, and on a
     * valid form the reset of `success` and `error` and the request body.
     */
    method Submit(form: SignupForm) returns (body: Option<SignupBody>)
      modifies this
      ensures body.Some? <==> SignupIssues(form) == []
      ensures body.Some? ==>
                body.value == SignupBody(form.username, form.password) &&
                Snapshot() == old(Snapshot()).(issues := [], success := false, error := "")
      ensures body.None? ==> Snapshot() == old(Snapshot()).(issues := SignupIssues(form))
    {
      issues := SignupIssues(form);
      if issues != [] {
        return None;
      }
      success := false;
      error := "";
      body := Some(SignupBody(form.username, form.password));
    }

    /** The rest of `submitData`, once the server has answered. */
    method Receive(response: SignupResponse)
      modifies this
      ensures response.Created? ==> Snapshot() == old(Snapshot()).(error := "", success := true)
      ensures response.Failed? ==> Snapshot() == old(Snapshot()).(success := false, error := response.message)
    {
      match response
      case Created =>
        error := "";
        success := true;
      case Failed(message) =>
        success := false;
        error := message;
    }
  }
}
