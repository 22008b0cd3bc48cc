/**
 * How the server's replies and the client's request bodies meet: a server
 * reply seen as a client response, and a client body seen as the server's
 * parsed request. The lemmas follow one request end to end.
 */
module Wire {
  import opened Common
  import opened Models
  import opened Http
  import opened Context
  import Api
  import Login
  import Signup

  function AsIdentity(v: Api.UserView): Identity {
    Identity(v.id, v.username, v.email, v.createdAt)
  }

  predicate OkStatus(status: int) {
    200 <= status < 300
  }

  /** A reply whose body is a user, as the client's user-returning requests read it. */
  function UserResponse(r: Api.Reply): (resp: Response<Identity>)
    ensures resp.Ok? <==> OkStatus(r.status)
    ensures resp.Ok? && r.body.UserJson? ==> resp.body == Some(AsIdentity(r.body.user))
    ensures resp.NotOk? && r.body.Errors? ==> resp == NotOk(r.status, Some(ErrorText(r.body.text)))
  {
    if OkStatus(r.status) then
      Ok(if r.body.UserJson? then Some(AsIdentity(r.body.user)) else None)
    else
      NotOk(r.status, Some(if r.body.Errors? then ErrorText(r.body.text) else NoErrorsField))
  }

  /** The server reads the signup body's four keys as strings. */
  function SignupRequestOf(b: Signup.SignupBody): (req: Api.SignupRequest)
    ensures req.passwordConfirmation == PyStr(b.password_confirmation)
  {
    Api.SignupRequest(PyStr(b.username), PyStr(b.email), PyStr(b.password), PyStr(b.password_confirmation))
  }

  function LoginRequestOf(b: Login.LoginBody): Api.LoginRequest {
    Api.LoginRequest(Some(b.identifier), Some(b.password))
  }

  /** Every error reply of the server carries a string, so the client shows its own fallback text. */
  lemma ServerErrorsShowFallback(r: Api.Reply, fallback: string)
    requires !OkStatus(r.status) && r.body.Errors?
    ensures ErrorMessages(Outcome(UserResponse(r)).error, fallback) == [fallback]
  {
  }

  /** Whatever rule a signup breaks, the signup form shows its one generic message. */
  lemma SignupFailureShowsGenericMessage(users: seq<UserRow>, b: Signup.SignupBody, now: int)
    requires Api.NewUser(users, SignupRequestOf(b), now).Failure?
    ensures var reply := Api.ExceptReply(Api.NewUser(users, SignupRequestOf(b), now).error, Api.SignupFailedText);
            ErrorMessages(Outcome(UserResponse(reply)).error, Signup.SignupFallbackText) == [Signup.SignupFallbackText]
  {
  }

  /** A confirmation that differs from the password is caught by the server, not the form. */
  lemma MismatchedConfirmationRejected(users: seq<UserRow>, b: Signup.SignupBody, now: int)
    requires b.username != "" && b.email != "" && b.password != "" && b.password_confirmation != ""
    requires b.password != b.password_confirmation
    ensures Api.NewUser(users, SignupRequestOf(b), now) == Failure(ValidationError("Passwords do not match."))
  {
    var req := SignupRequestOf(b);
    assert Api.AllFieldsGiven(req);
    assert !PyEq(req.password, req.passwordConfirmation);
  }

  /** A successful signup signs the client in as exactly the stored user. */
  lemma SignupSuccessSignsIn(users: seq<UserRow>, b: Signup.SignupBody, now: int)
    requires Api.NewUser(users, SignupRequestOf(b), now).Success?
    ensures var u := Api.NewUser(users, SignupRequestOf(b), now).value;
            Outcome(UserResponse(Api.Reply(201, Api.UserJson(Api.ToDict(u))))) == Success(Identity(u.id, b.username, b.email, now))
  {
  }

  /** Bad credentials and missing fields both show the login form's generic message. */
  lemma LoginFailuresShowGenericMessage()
    ensures ErrorMessages(Outcome(UserResponse(Api.InvalidLoginReply)).error, Login.LoginFallbackText) == [Login.LoginFallbackText]
    ensures ErrorMessages(Outcome(UserResponse(Api.LoginFailedReply)).error, Login.LoginFallbackText) == [Login.LoginFallbackText]
  {
  }
}
