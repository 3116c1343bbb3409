/**
 * The session store of `AuthProvider`: the signed-in user, the bootstrap
 * `loading` flag and the two durable storage keys `token` and `user`.
 *
 * Each operation is defined twice, as a pure step on a `Snapshot` (used by the
 * lemmas about sequences of operations) and as a method of `SessionStore`
 * that updates the fields in the order the source does and is proved to
 * perform exactly that step.
 */
module Auth {
  import opened Common
  import opened Codec

  const TokenKey := "token"
  const UserKey := "user"

  /** The response body of a successful `POST /auth/login`. */
  datatype LoginData = LoginData(token: string, user: User)

  /** The JSON body posted to `/auth/login` or `/auth/register`. */
  datatype AuthRequest =
    | LoginRequest(email: string, password: string)
    | RegisterRequest(name: string, email: string, password: string)

  /** The whole observable state of the provider at one moment. */
  datatype Snapshot = Snapshot(user: Option<User>, loading: bool, storage: map<string, string>)

  /** `if (token)`: a missing key and an empty string are both falsy. */
  predicate HasToken(storage: map<string, string>): (b: bool)
    ensures b ==> TokenKey in storage
    ensures TokenKey !in storage ==> !b
    ensures TokenKey in storage && storage[TokenKey] == "" ==> !b
  {
    TokenKey in storage && storage[TokenKey] != ""
  }

  /**
   * `JSON.parse(localStorage.getItem('user'))`: a missing key reads as
   * `null`, which parses to `Null`.
   */
  function StoredUser(storage: map<string, string>): (r: Option<Json>)
    ensures UserKey !in storage ==> r == Some(Null)
  {
    if UserKey in storage then Parse(storage[UserKey]) else Some(Null)
  }

  /** The value `setUser(savedUser)` installs. */
  function AsUser(v: Json): (r: Option<User>)
    ensures r.None? <==> v == Null
    ensures v.UserObject? ==> r == Some(v.user)
  {
    match v
    case Null => None
    case UserObject(u) => Some(u)
  }

  /** Both keys removed, as `removeItem('token')` then `removeItem('user')` do. */
  function Cleared(storage: map<string, string>): (r: map<string, string>)
    ensures TokenKey !in r && UserKey !in r
    ensures forall k :: k in storage && k != TokenKey && k != UserKey ==> k in r && r[k] == storage[k]
    ensures r.Keys <= storage.Keys
  {
    storage - {TokenKey, UserKey}
  }

  /** The state `AuthProvider` starts in, over whatever the browser had stored. */
  function Init(persisted: map<string, string>): (s: Snapshot)
    ensures s.user == None && s.loading && s.storage == persisted
  {
    Snapshot(None, true, persisted)
  }

  /** `checkToken`, given the outcome of `GET /auth/verify`. */
  function BootstrapStep(s: Snapshot, verify: Reply<()>): (t: Snapshot)
    ensures !t.loading
    ensures !HasToken(s.storage) ==> t.storage == s.storage && t.user == s.user
    ensures HasToken(s.storage) && verify.Ok? && StoredUser(s.storage).Some? ==>
              t.storage == s.storage && t.user == AsUser(StoredUser(s.storage).value)
    ensures HasToken(s.storage) && (verify.Err? || StoredUser(s.storage).None?) ==>
              t.storage == Cleared(s.storage) && t.user == s.user
    ensures t.user != s.user ==> verify.Ok? && HasToken(s.storage) && t.storage == s.storage
  {
    if !HasToken(s.storage) then s.(loading := false)
    else match verify
      case Err(_) => s.(storage := Cleared(s.storage), loading := false)
      case Ok(_) =>
        match StoredUser(s.storage)
        case None => s.(storage := Cleared(s.storage), loading := false)
        case Some(v) => s.(user := AsUser(v), loading := false)
  }

  /** `login`, given the outcome of `POST /auth/login`. */
  function LoginStep(s: Snapshot, reply: Reply<LoginData>): (t: Snapshot)
    ensures reply.Err? ==> t == s
    ensures reply.Ok? ==> t.user == Some(reply.data.user) && t.loading == s.loading
    ensures reply.Ok? ==> t.storage.Keys == s.storage.Keys + {TokenKey, UserKey}
    ensures reply.Ok? ==> t.storage[TokenKey] == reply.data.token
    ensures reply.Ok? ==> StoredUser(t.storage) == Some(UserObject(reply.data.user))
    ensures forall k :: k in s.storage && k != TokenKey && k != UserKey ==> k in t.storage && t.storage[k] == s.storage[k]
  {
    match reply
    case Err(_) => s
    case Ok(d) =>
      ParseStringify(d.user);
      s.(storage := s.storage[TokenKey := d.token][UserKey := Stringify(d.user)], user := Some(d.user))
  }

  /** `logout`: both keys removed and the user forgotten, whatever the state was. */
  function LogoutStep(s: Snapshot): (t: Snapshot)
    ensures t.user == None && t.loading == s.loading
    ensures TokenKey !in t.storage && UserKey !in t.storage
    ensures t.storage.Keys == s.storage.Keys - {TokenKey, UserKey}
    ensures forall k :: k in s.storage && k != TokenKey && k != UserKey ==> k in t.storage && t.storage[k] == s.storage[k]
  {
    s.(storage := Cleared(s.storage), user := None)
  }

  class SessionStore {
    var user: Option<User>
    var loading: bool
    var storage: map<string, string>

    function State(): Snapshot
      reads this
    {
      Snapshot(user, loading, storage)
    }

    /** `useState(null)` and `useState(true)` over the browser's storage. */
    constructor (persisted: map<string, string>)
      ensures State() == Init(persisted)
    {
      user := None;
      loading := true;
      storage := persisted;
    }

    /** The mount effect `checkToken`; `verify` is the outcome of `GET /auth/verify`. */
    method Bootstrap(verify: Reply<()>)
      modifies this
      ensures State() == BootstrapStep(old(State()), verify)
      ensures !loading
    {
      if TokenKey in storage && storage[TokenKey] != "" {
        match verify {
          case Err(_) =>
            storage := storage - {TokenKey};
            storage := storage - {UserKey};
          case Ok(_) =>
            var saved := StoredUser(storage);
            match saved {
              case None =>
                storage := storage - {TokenKey};
                storage := storage - {UserKey};
              case Some(v) =>
                user := AsUser(v);
            }
        }
      }
      loading := false;
    }

    /**
     * `login(email, password)`; `reply` is the outcome of `POST /auth/login`.
     * `request` is the body posted, holding the two credentials as given. The
     * result is the response body on success and the same rejection on
     * failure: the error reaches the caller unchanged.
     */
    method Login(email: string, password: string, reply: Reply<LoginData>)
      returns (request: AuthRequest, r: Reply<LoginData>)
      modifies this
      ensures request == LoginRequest(email, password)
      ensures State() == LoginStep(old(State()), reply)
      ensures r == reply
    {
      request := LoginRequest(email, password);
      match reply {
        case Err(e) =>
          r := Err(e);
        case Ok(d) =>
          storage := storage[TokenKey := d.token];
          storage := storage[UserKey := Stringify(d.user)];
          user := Some(d.user);
          r := Ok(d);
      }
    }

    /**
     * `register(name, email, password)`: the three values are posted as
     * `request`, the outcome of `POST /auth/register` is handed back and
     * nothing in the store changes (there is no modifies clause).
     */
    method Register<T>(name: string, email: string, password: string, reply: Reply<T>)
      returns (request: AuthRequest, r: Reply<T>)
      ensures request == RegisterRequest(name, email, password)
      ensures r == reply
    {
      request := RegisterRequest(name, email, password);
      match reply {
        case Err(e) => r := Err(e);
        case Ok(d) => r := Ok(d);
      }
    }

    method Logout()
      modifies this
      ensures State() == LogoutStep(old(State()))
    {
      storage := storage - {TokenKey};
      storage := storage - {UserKey};
      user := None;
    }
  }

  // ---------------------------------------------------------------------------
  // Properties of the session lifecycle

  /** An operation a signed-in (or signed-out) page can invoke after bootstrap. */
  datatype Op = DoLogin(login: Reply<LoginData>) | DoRegister | DoLogout

  function Apply(s: Snapshot, op: Op): Snapshot {
    match op
    case DoLogin(reply) => LoginStep(s, reply)
    case DoRegister => s
    case DoLogout => LogoutStep(s)
  }

  /** The state after a sequence of operations, applied in order. */
  function Run(s: Snapshot, ops: seq<Op>): Snapshot
    decreases |ops|
  {
    if ops == [] then s else Run(Apply(s, ops[0]), ops[1..])
  }

  /** The two keys are written together and removed together. */
  predicate Paired(storage: map<string, string>) {
    TokenKey in storage <==> UserKey in storage
  }

  /**
   * The identity on screen is the one persisted: whenever a user is signed in,
   * a token is stored and the stored user text decodes to that user.
   */
  predicate ShowsPersisted(s: Snapshot) {
    s.user.Some? ==> TokenKey in s.storage && StoredUser(s.storage) == Some(UserObject(s.user.value))
  }

  /** What every state after bootstrap satisfies. */
  predicate Consistent(s: Snapshot) {
    ShowsPersisted(s) && !s.loading
  }

  /** Whatever was stored, bootstrap yields a consistent session. */
  lemma BootstrapEstablishes(persisted: map<string, string>, verify: Reply<()>)
    ensures Consistent(BootstrapStep(Init(persisted), verify))
  {
  }

  /** Bootstrap over storage whose two keys are present together keeps them so. */
  lemma BootstrapKeepsPaired(persisted: map<string, string>, verify: Reply<()>)
    requires Paired(persisted)
    ensures Paired(BootstrapStep(Init(persisted), verify).storage)
  {
  }

  /** Each operation after bootstrap keeps the session consistent and the keys paired. */
  lemma ApplyPreserves(s: Snapshot, op: Op)
    requires Consistent(s)
    ensures Consistent(Apply(s, op))
    ensures Paired(s.storage) ==> Paired(Apply(s, op).storage)
  {
  }

  /** Any sequence of operations after bootstrap keeps the session consistent and the keys paired. */
  lemma {:induction false} RunPreserves(s: Snapshot, ops: seq<Op>)
    requires Consistent(s)
    ensures Consistent(Run(s, ops))
    ensures Paired(s.storage) ==> Paired(Run(s, ops).storage)
    decreases |ops|
  {
    if ops != [] {
      ApplyPreserves(s, ops[0]);
      RunPreserves(Apply(s, ops[0]), ops[1..]);
    }
  }

  /** `logout` is idempotent. */
  lemma LogoutIdempotent(s: Snapshot)
    ensures LogoutStep(LogoutStep(s)) == LogoutStep(s)
  {
  }

  /**
   * A persisted token without a successful verification never signs anyone
   * in: bootstrap from a fresh start signs a user in exactly when a token is
   * stored, the verify call succeeds and the stored user decodes to a user.
   */
  lemma BootstrapSignsInOnlyVerified(persisted: map<string, string>, verify: Reply<()>)
    ensures var t := BootstrapStep(Init(persisted), verify);
      t.user.Some? <==> HasToken(persisted) && verify.Ok? && StoredUser(persisted).Some? && StoredUser(persisted).value.UserObject?
  {
  }

  /**
   * Signing in and then reloading the page restores the same user, provided
   * the token is non-empty and the verify call succeeds on the reload.
   */
  lemma {:induction false} LoginSurvivesReload(s: Snapshot, d: LoginData, verify: Reply<()>)
    requires d.token != "" && verify.Ok?
    ensures var t := LoginStep(s, Ok(d));
      BootstrapStep(Init(t.storage), verify) == Snapshot(Some(d.user), false, t.storage)
  {
    ParseStringify(d.user);
  }
}
