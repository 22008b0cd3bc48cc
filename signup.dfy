/** The signup form and its submission. */
module Signup {
  import opened Common
  import opened Http
  import opened Context

  const SignupFallbackText := "Signup failed. Please try again."

  /** The JSON body; the confirmation travels under the key `password_confirmation`. */
  datatype SignupBody = SignupBody(username: string, email: string, password: string, password_confirmation: string)

  class SignupForm {
    const ctx: UserContext
    var username: string
    var email: string
    var password: string
    var passwordConfirmation: string
    var errors: seq<string>
    var isLoading: bool

    constructor (ctx: UserContext)
      ensures this.ctx == ctx
      ensures username == "" && email == "" && password == "" && passwordConfirmation == ""
      ensures errors == [] && !isLoading
    {
      this.ctx := ctx;
      username, email, password, passwordConfirmation := "", "", "", "";
      errors, isLoading := [], false;
    }

    /** The synchronous part of `handleSubmit`: clear the errors, mark loading, build the request body. */
    method Submit() returns (body: SignupBody)
      modifies this
      ensures body == SignupBody(username, email, password, passwordConfirmation)
      ensures username == old(username) && email == old(email)
      ensures password == old(password) && passwordConfirmation == old(passwordConfirmation)
      ensures errors == [] && isLoading
    {
      errors := [];
      isLoading := true;
      body := SignupBody(username, email, password, passwordConfirmation);
    }

    /**
     * The settling of the request: an ok body becomes the signed-in user and
     * navigates to the dashboard; any failure shows the normalised errors.
     * Loading ends on every path.
     */
    method Settle(resp: Response<Identity>) returns (navigate: Option<string>)
      modifies this, ctx
      ensures !isLoading
      ensures username == old(username) && email == old(email)
      ensures password == old(password) && passwordConfirmation == old(passwordConfirmation)
      ensures Outcome(resp).Success? ==>
                ctx.user == Some(Outcome(resp).value) && navigate == Some("/dashboard") && errors == old(errors)
      ensures Outcome(resp).Failure? ==>
                ctx.user == old(ctx.user) && navigate == None && errors == ErrorMessages(Outcome(resp).error, SignupFallbackText)
    {
      match Outcome(resp) {
        case Success(u) =>
          ctx.user := Some(u);
          navigate := Some("/dashboard");
        case Failure(rej) =>
          errors := ErrorMessages(rej, SignupFallbackText);
          navigate := None;
      }
      isLoading := false;
    }
  }
}
