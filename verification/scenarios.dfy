/**
 * End-to-end sessions driven through the page and store classes, using
 * nothing but their contracts: what a caller can conclude about the route
 * guard after bootstrap, login and logout.
 */
module Scenarios {
  import opened Common
  import opened Codec
  import opened FormRules
  import Auth
  import Guard
  import LoginPage

  const Ana := User("Ana", "ana@x.com")

  /** The address used below satisfies the e-mail rule. */
  lemma AnaAddressIsValid()
    ensures EmailShape("ana@x.com")
  {
    var s := "ana@x.com";
    forall k | 0 <= k < |s| && k != 3
      ensures InClass(s[k])
    {
      assert s[k] in {'a', 'n', 'x', '.', 'c', 'o', 'm'};
    }
    assert s[3] == '@' && s[5] == '.';
    EmailPatternIffShape(s);
  }

  /** A rejected address: no dot after the `@`. */
  lemma NoDotIsInvalid()
    ensures !EmailShape("ana@x")
  {
    CountOneAt("ana@x", '@', 3);
  }

  /** No stored credential: bootstrap ends on the login redirect. */
  method NoStoredToken() {
    var session := new Auth.SessionStore(map[]);
    assert Guard.Decide(session.State()) == Guard.Wait;
    session.Bootstrap(Ok(()));
    assert Guard.Decide(session.State()) == Guard.Redirect(Guard.LoginPath);
  }

  /** Stored credential, verify answers 401: storage ends up empty. */
  method ExpiredToken() {
    var session := new Auth.SessionStore(map[Auth.TokenKey := "t0", Auth.UserKey := Stringify(Ana)]);
    session.Bootstrap(Err(Some("Token inválido")));
    assert session.storage == map[];
    assert Guard.Decide(session.State()) == Guard.Redirect(Guard.LoginPath);
  }

  /** Stored credential, verify succeeds: the stored user is restored. */
  method RestoredSession() {
    var session := new Auth.SessionStore(map[Auth.TokenKey := "t0", Auth.UserKey := Stringify(Ana)]);
    ParseStringify(Ana);
    session.Bootstrap(Ok(()));
    assert session.user == Some(Ana);
    assert Guard.Decide(session.State()) == Guard.Allow;
  }

  /** Login through the page, then logout. */
  method LoginThenLogout() {
    var session := new Auth.SessionStore(map[]);
    session.Bootstrap(Ok(()));
    var page := new LoginPage.LoginForm();
    AnaAddressIsValid();
    var nav, sent := page.Submit(session, "ana@x.com", "secret1", Ok(Auth.LoginData("t1", Ana)));
    assert sent == Some(Auth.LoginRequest("ana@x.com", "secret1"));
    assert nav == Some(LoginPage.DashboardPath);
    assert session.user == Some(Ana) && session.storage[Auth.TokenKey] == "t1";
    assert Guard.Decide(session.State()) == Guard.Allow;
    session.Logout();
    assert Guard.Decide(session.State()) == Guard.Redirect(Guard.LoginPath);
  }

  /** A rejected login leaves the session signed out and shows the server's text. */
  method RejectedLogin() {
    var session := new Auth.SessionStore(map[]);
    session.Bootstrap(Ok(()));
    var page := new LoginPage.LoginForm();
    AnaAddressIsValid();
    var nav, sent := page.Submit(session, "ana@x.com", "secret1", Err(Some("invalid credentials")));
    assert sent == Some(Auth.LoginRequest("ana@x.com", "secret1"));
    assert nav == None && page.serverError == "invalid credentials";
    assert session.user == None && session.storage == map[];
  }

  /** The store posts the credentials it is given and hands a rejection back unchanged. */
  method StorePassesRejectionThrough() {
    var session := new Auth.SessionStore(map[]);
    var sent, r := session.Login("ana@x.com", "secret1", Err(Some("invalid credentials")));
    assert sent == Auth.LoginRequest("ana@x.com", "secret1");
    assert r == Err(Some("invalid credentials")) && session.user == None;
  }
}
