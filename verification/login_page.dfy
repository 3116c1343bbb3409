/**
 * The Login page: `handleSubmit(onSubmit)` validates the two fields and, when
 * they pass, `onSubmit` signs in through the session store and either
 * navigates to the dashboard or shows the server's error.
 */
module LoginPage {
  import opened Common
  import opened FormRules
  import Auth

  const DashboardPath := "/dashboard"
  const LoginFailed := "Erro ao fazer login"

  class LoginForm {
    var serverError: string
    var loading: bool
    var errors: LoginErrors

    constructor ()
      ensures serverError == "" && !loading && errors == LoginErrors(None, None)
    {
      serverError := "";
      loading := false;
      errors := LoginErrors(None, None);
    }

    /**
     * One submission of the form. `reply` is the outcome of the login call
     * made through `session`; the results are the route navigated to, if
     * any, and the body posted to the backend, if any. When a field rule
     * fails, `onSubmit` does not run: the field errors are shown, nothing is
     * posted and nothing else changes.
     */
    method Submit(session: Auth.SessionStore, email: string, password: string, reply: Reply<Auth.LoginData>)
      returns (navigate: Option<string>, request: Option<Auth.AuthRequest>)
      modifies this, session
      ensures errors == CheckLogin(email, password)
      ensures request.Some? <==> errors.Passes()
      ensures request.Some? ==> CheckLogin(request.value.email, request.value.password).Passes()
      ensures !errors.Passes() ==>
        navigate == None && serverError == old(serverError) && loading == old(loading)
        && session.State() == old(session.State())
      ensures errors.Passes() ==>
        request == Some(Auth.LoginRequest(email, password))
        && !loading && session.State() == Auth.LoginStep(old(session.State()), reply)
        && (reply.Ok? ==> navigate == Some(DashboardPath) && serverError == "")
        && (reply.Err? ==> navigate == None && serverError == MessageOr(reply.error, LoginFailed))
    {
      errors := CheckLogin(email, password);
      navigate := None;
      request := None;
      if !errors.Passes() {
        return;
      }
      loading := true;
      serverError := "";
      var sent, r := session.Login(email, password, reply);
      request := Some(sent);
      match r {
        case Ok(_) =>
          navigate := Some(DashboardPath);
        case Err(e) =>
          serverError := MessageOr(e, LoginFailed);
      }
      loading := false;
    }
  }
}
