/**
 * `PrivateRoute`: the gate in front of every protected page. It reads the
 * session's `loading` flag and `user` and decides between the loading
 * placeholder, a redirect to the login page and rendering the page.
 */
module Guard {
  import opened Common
  import opened Codec
  import Auth

  const LoginPath := "/login"

  datatype Decision = Wait | Redirect(to: string) | Allow

  /** The `if (loading) … if (!user) … return children` chain. */
  function Evaluate(loading: bool, user: Option<User>): (d: Decision)
    ensures d == Wait <==> loading
    ensures d == Redirect(LoginPath) <==> !loading && user.None?
    ensures d == Allow <==> !loading && user.Some?
    ensures d.Redirect? ==> d.to == LoginPath
  {
    if loading then Wait
    else if user.None? then Redirect(LoginPath)
    else Allow
  }

  /** The decision for a session snapshot. */
  function Decide(s: Auth.Snapshot): Decision {
    Evaluate(s.loading, s.user)
  }

  /** Every decision is one of the three outcomes, and a redirect always goes to the login page. */
  lemma Exhaustive(loading: bool, user: Option<User>)
    ensures Evaluate(loading, user) in {Wait, Redirect(LoginPath), Allow}
  {
  }

  /** While loading, the user is not looked at. */
  lemma LoadingTakesPrecedence(user1: Option<User>, user2: Option<User>)
    ensures Evaluate(true, user1) == Evaluate(true, user2) == Wait
  {
  }

  /** A fresh session waits: no redirect flashes before bootstrap resolves. */
  lemma WaitsUntilBootstrapped(persisted: map<string, string>)
    ensures Decide(Auth.Init(persisted)) == Wait
  {
  }

  /**
   * After bootstrap the guard never waits again, and it lets a page render
   * only when the verify call succeeded and the stored user was restored.
   */
  lemma {:induction false} AfterBootstrap(persisted: map<string, string>, verify: Reply<()>, ops: seq<Auth.Op>)
    ensures var s := Auth.Run(Auth.BootstrapStep(Auth.Init(persisted), verify), ops);
      Decide(s) != Wait
      && (Decide(s) == Allow ==> Auth.TokenKey in s.storage && Auth.StoredUser(s.storage) == Some(UserObject(s.user.value)))
  {
    Auth.BootstrapEstablishes(persisted, verify);
    Auth.RunPreserves(Auth.BootstrapStep(Auth.Init(persisted), verify), ops);
  }

  /** No stored token: bootstrap leads to the login page. */
  lemma NoTokenRedirects(persisted: map<string, string>, verify: Reply<()>)
    requires !Auth.HasToken(persisted)
    ensures Decide(Auth.BootstrapStep(Auth.Init(persisted), verify)) == Redirect(LoginPath)
  {
  }

  /** Stored token, verify rejected: storage loses both keys and the login page is shown. */
  lemma RejectedTokenRedirects(persisted: map<string, string>, error: Option<string>)
    requires Auth.HasToken(persisted)
    ensures var t := Auth.BootstrapStep(Auth.Init(persisted), Err(error));
      Decide(t) == Redirect(LoginPath) && Auth.TokenKey !in t.storage && Auth.UserKey !in t.storage
  {
  }

  /** Stored token and user, verify accepted: the stored user is let in. */
  lemma {:induction false} VerifiedTokenAllows(persisted: map<string, string>, u: User)
    requires Auth.HasToken(persisted) && Auth.UserKey in persisted && persisted[Auth.UserKey] == Stringify(u)
    ensures var t := Auth.BootstrapStep(Auth.Init(persisted), Ok(()));
      Decide(t) == Allow && t.user == Some(u)
  {
    ParseStringify(u);
  }

  /** A successful login after bootstrap lets protected pages render; logout closes them. */
  lemma LoginAllowsLogoutRedirects(s: Auth.Snapshot, d: Auth.LoginData)
    requires !s.loading
    ensures Decide(Auth.LoginStep(s, Ok(d))) == Allow
    ensures Decide(Auth.LogoutStep(s)) == Redirect(LoginPath)
  {
  }
}
