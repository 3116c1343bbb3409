/**
 * The Register page: `handleSubmit(onSubmit)` validates the four fields and,
 * when they pass, `onSubmit` creates the account through the session store
 * and either navigates to the login page or shows the server's error. It
 * does not sign the new account in.
 */
module RegisterPage {
  import opened Common
  import opened FormRules
  import Auth
  import Guard

  const RegisterFailed := "Erro ao criar conta"

  /** The response body of `POST /auth/register`, which the page does not read. */
  datatype Account = Account

  class RegisterForm {
    var serverError: string
    var loading: bool
    var errors: RegisterErrors

    constructor ()
      ensures serverError == "" && !loading && errors == RegisterErrors(None, None, None, None)
    {
      serverError := "";
      loading := false;
      errors := RegisterErrors(None, None, None, None);
    }

    /**
     * One submission of the form; `reply` is the outcome of the register call
     * made through `session`, and `request` the body posted, if any. The
     * confirmation is checked but never posted. The session is never modified.
     */
    method Submit(session: Auth.SessionStore, name: string, email: string, password: string,
                  confirmPassword: string, reply: Reply<Account>)
      returns (navigate: Option<string>, request: Option<Auth.AuthRequest>)
      modifies this
      ensures errors == CheckRegister(name, email, password, confirmPassword)
      ensures session.State() == old(session.State())
      ensures request.Some? <==> errors.Passes()
      ensures request.Some? ==> request.value.RegisterRequest? && CheckLogin(request.value.email, request.value.password).Passes()
      ensures !errors.Passes() ==>
        navigate == None && serverError == old(serverError) && loading == old(loading)
      ensures errors.Passes() ==>
        request == Some(Auth.RegisterRequest(name, email, password))
        && !loading
        && (reply.Ok? ==> navigate == Some(Guard.LoginPath) && serverError == "")
        && (reply.Err? ==> navigate == None && serverError == MessageOr(reply.error, RegisterFailed))
    {
      errors := CheckRegister(name, email, password, confirmPassword);
      navigate := None;
      request := None;
      if !errors.Passes() {
        return;
      }
      loading := true;
      serverError := "";
      var sent, r := session.Register(name, email, password, reply);
      request := Some(sent);
      match r {
        case Ok(_) =>
          navigate := Some(Guard.LoginPath);
        case Err(e) =>
          serverError := MessageOr(e, RegisterFailed);
      }
      loading := false;
    }
  }
}
