/** The login form and its submission. */
module Login {
  import opened Common
  import opened Http
  import opened Context

  const LoginFallbackText := "Login failed. Please check your credentials or network."

  /** The JSON body `{identifier, password}`. */
  datatype LoginBody = LoginBody(identifier: string, password: string)

  class LoginForm {
    const ctx: UserContext
    var identifier: string
    var password: string
    var errors: seq<string>
    var isLoading: bool

    constructor (ctx: UserContext)
      ensures this.ctx == ctx
      ensures identifier == "" && password == "" && errors == [] && !isLoading
    {
      this.ctx := ctx;
      identifier, password, errors, isLoading := "", "", [], false;
    }

    /** The synchronous part of `handleSubmit`: clear the errors, mark loading, build the request body. */
    method Submit() returns (body: LoginBody)
      modifies this
      ensures body == LoginBody(identifier, password)
      ensures identifier == old(identifier) && password == old(password)
      ensures errors == [] && isLoading
    {
      errors := [];
      isLoading := true;
      body := LoginBody(identifier, password);
    }

    /**
     * The settling of the request: an ok body replaces the signed-in user and
     * navigates to the dashboard; any failure shows the normalised errors and
     * keeps the user. Loading ends on every path.
     */
    method Settle(resp: Response<Identity>) returns (navigate: Option<string>)
      modifies this, ctx
      ensures !isLoading
      ensures identifier == old(identifier) && password == old(password)
      ensures Outcome(resp).Success? ==>
                ctx.user == Some(Outcome(resp).value) && navigate == Some("/dashboard") && errors == old(errors)
      ensures Outcome(resp).Failure? ==>
                ctx.user == old(ctx.user) && navigate == None && errors == ErrorMessages(Outcome(resp).error, LoginFallbackText)
    {
      match Outcome(resp) {
        case Success(u) =>
          ctx.user := Some(u);
          navigate := Some("/dashboard");
        case Failure(rej) =>
          errors := ErrorMessages(rej, LoginFallbackText);
          navigate := None;
      }
      isLoading := false;
    }
  }
}
