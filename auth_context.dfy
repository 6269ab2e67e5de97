/** The session store of src/contexts/AuthContext.tsx: the current user, the
    `loading` flag and the two browser-storage keys `token` and `user`.

    The backend's answers are parameters (`Reply`); `Math.random()` and
    `Date.now()` of the test login are the parameters `testId` and `now`.
    Each state change is a function of the old state (`RestoreStep`,
    `LoginStep`, `RegisterStep`, `LogoutStep`), and the class `AuthProvider`
    performs the same change step by step on its fields. */
module AuthContext {
  import opened Wrappers
  import opened Text

  /** The address that the backend login and the `/dashboard` dispatcher treat
      as an administrator. */
  const AdminOverrideEmail := "admin2@bibliotec.com"

  /** The signed-in identity. Fields the backend may omit are optional. */
  datatype AuthUser = AuthUser(
    id: Option<string>,
    nombre: Option<string>,
    email: Option<string>,
    tipo: string,
    avatar: Option<string>,
    token: Option<string>)

  datatype Credentials = Credentials(username: string, password: string)

  /** The user fields a backend payload may carry (every one may be missing). */
  datatype Profile = Profile(
    id: Option<string>,
    nombre: Option<string>,
    name: Option<string>,
    username: Option<string>,
    email: Option<string>,
    role: Option<string>,
    tipo: Option<string>,
    avatar: Option<string>,
    accessToken: Option<string>,
    token: Option<string>)

  /** A parsed reply body: the `success` flag, the optional nested `data` and
      `user` objects, and the fields found at the top level of the body. */
  datatype Body = Body(success: bool, data: Option<Profile>, user: Option<Profile>, top: Profile)

  /** What a `fetch` followed by `response.json()` gave: it threw (network
      failure or unparseable body), or it answered with a status and a body. */
  datatype Reply = Threw | Answered(ok: bool, body: Body)

  /** The values held under the storage keys `token` and `user`
      (`None` when the key is absent). */
  datatype Persisted = Persisted(token: Option<string>, user: Option<AuthUser>)

  datatype Session = Session(user: Option<AuthUser>, loading: bool, persisted: Persisted)

  /** `localStorage.setItem` stores `String(value)`: an undefined token is
      stored as the text "undefined". */
  function StorageString(o: Option<string>): (r: string)
    ensures o.Some? ==> r == o.value
  {
    o.GetOr("undefined")
  }

  predicate Accepted(reply: Reply) {
    reply.Answered? && reply.ok && reply.body.success
  }

  // ---------------------------------------------------------------------------
  // Field fallback chains

  /** `nombre || name || username || email`. */
  function DisplayName(p: Profile): (r: Option<string>)
    ensures Truthy(p.nombre) ==> r == p.nombre
    ensures !Truthy(p.nombre) && Truthy(p.name) ==> r == p.name
    ensures !Truthy(p.nombre) && !Truthy(p.name) && Truthy(p.username) ==> r == p.username
    ensures !Truthy(p.nombre) && !Truthy(p.name) && !Truthy(p.username) ==> r == p.email
  {
    FirstTruthy4(p.nombre, p.name, p.username, p.email);
    FirstTruthy([p.nombre, p.name, p.username, p.email])
  }

  /** `role || tipo || 'estudiante'`, as restore computes the user type. */
  function RestoredTipo(p: Profile): (r: string)
    ensures r != ""
    ensures Truthy(p.role) ==> r == p.role.value
    ensures !Truthy(p.role) && Truthy(p.tipo) ==> r == p.tipo.value
    ensures !Truthy(p.role) && !Truthy(p.tipo) ==> r == "estudiante"
  {
    FirstTruthy3(p.role, p.tipo, Some("estudiante"));
    FirstTruthy([p.role, p.tipo, Some("estudiante")]).value
  }

  /** `data.data || data.user || data`: objects are always truthy. */
  function UserData(b: Body): (r: Profile)
    ensures b.data.Some? ==> r == b.data.value
    ensures b.data.None? && b.user.Some? ==> r == b.user.value
    ensures b.data.None? && b.user.None? ==> r == b.top
  {
    if b.data.Some? then b.data.value else if b.user.Some? then b.user.value else b.top
  }

  /** `data.data?.access_token || data.access_token || data.token`. */
  function ReplyToken(b: Body): (r: Option<string>)
    ensures b.data.Some? && Truthy(b.data.value.accessToken) ==> r == b.data.value.accessToken
    ensures (b.data.None? || !Truthy(b.data.value.accessToken)) && Truthy(b.top.accessToken) ==>
              r == b.top.accessToken
    ensures (b.data.None? || !Truthy(b.data.value.accessToken)) && !Truthy(b.top.accessToken) ==>
              r == b.top.token
  {
    var nested := if b.data.Some? then b.data.value.accessToken else None;
    FirstTruthy3(nested, b.top.accessToken, b.top.token);
    FirstTruthy([nested, b.top.accessToken, b.top.token])
  }

  /** The email heuristic of the backend login. */
  predicate LooksLikeAdminEmail(email: Option<string>) {
    email == Some(AdminOverrideEmail) || (email.Some? && Contains(email.value, "admin"))
  }

  /** The user type the backend login assigns: `role`, else `tipo`, else
      'admin' for an administrator-looking email, else 'estudiante'. */
  function LoginTipo(u: Profile): (r: string)
    ensures r != ""
    ensures Truthy(u.role) ==> r == u.role.value
    ensures !Truthy(u.role) && Truthy(u.tipo) ==> r == u.tipo.value
    ensures !Truthy(u.role) && !Truthy(u.tipo) ==> (r == "admin" <==> LooksLikeAdminEmail(u.email))
    ensures !Truthy(u.role) && !Truthy(u.tipo) ==> r in {"admin", "estudiante"}
  {
    if Truthy(u.role) then u.role.value
    else if Truthy(u.tipo) then u.tipo.value
    else if LooksLikeAdminEmail(u.email) then "admin"
    else "estudiante"
  }

  /** The user type registration assigns: `role`, else `tipo`, else
      'estudiante'; there is no email heuristic. */
  function RegisterTipo(u: Profile): (r: string)
    ensures r != ""
    ensures Truthy(u.role) ==> r == u.role.value
    ensures !Truthy(u.role) && Truthy(u.tipo) ==> r == u.tipo.value
    ensures !Truthy(u.role) && !Truthy(u.tipo) ==> r == "estudiante"
  {
    if Truthy(u.role) then u.role.value
    else if Truthy(u.tipo) then u.tipo.value
    else "estudiante"
  }

  // ---------------------------------------------------------------------------
  // The test-account table

  datatype TestAccount = TestAccount(email: string, password: string, tipo: string, nombre: string)

  const TestAccounts: seq<TestAccount> := [
    TestAccount("admin2@bibliotec.com", "admin123", "admin", "Administrador Principal"),
    TestAccount("usuario@test.com", "user123", "estudiante", "Usuario de Prueba"),
    TestAccount("admin@test.com", "admin123", "admin", "Admin Test")
  ]

  predicate AccountMatches(a: TestAccount, c: Credentials) {
    a.email == c.username && a.password == c.password
  }

  /** `accounts.find(...)`: the first account whose email and password equal
      the credentials exactly. */
  function FindAccount(accounts: seq<TestAccount>, c: Credentials): (r: Option<TestAccount>)
    ensures r.Some? ==> AccountMatches(r.value, c)
    ensures r.Some? ==> exists i :: 0 <= i < |accounts| && accounts[i] == r.value &&
                                   forall j :: 0 <= j < i ==> !AccountMatches(accounts[j], c)
    ensures r.None? <==> forall a :: a in accounts ==> !AccountMatches(a, c)
    decreases |accounts|
  {
    if accounts == [] then None
    else if AccountMatches(accounts[0], c) then Some(accounts[0])
    else
      var r := FindAccount(accounts[1..], c);
      assert forall j :: 1 <= j < |accounts| ==> accounts[j] == accounts[1..][j - 1];
      assert forall a :: a in accounts ==> a == accounts[0] || a in accounts[1..];
      r
  }

  /** The identity synthesised for a test account. */
  function TestUser(a: TestAccount, testId: string, now: nat): (r: AuthUser)
    ensures r.tipo == a.tipo && r.nombre == Some(a.nombre) && r.email == Some(a.email) && r.id == Some(testId)
    ensures r.token.Some? && IsPrefix("test-token-", r.token.value)
    ensures r.token.value[|"test-token-"|..] == NatToString(now)
  {
    AuthUser(Some(testId), Some(a.nombre), Some(a.email), a.tipo, None,
             Some("test-token-" + NatToString(now)))
  }

  /** The identity built from an accepted backend login or registration. */
  function BackendUser(b: Body, tipo: string): (r: AuthUser)
    ensures r.tipo == tipo && r.token == ReplyToken(b)
    ensures r.id == UserData(b).id && r.email == UserData(b).email && r.avatar == UserData(b).avatar
    ensures r.nombre == DisplayName(UserData(b))
  {
    var u := UserData(b);
    AuthUser(u.id, DisplayName(u), u.email, tipo, u.avatar, ReplyToken(b))
  }

  // ---------------------------------------------------------------------------
  // State changes as functions of the old state

  /** The persisted token is the current user's token: the invariant that the
      store's operations keep between the credential and the identity. */
  predicate TokenPersisted(s: Session) {
    s.user.Some? ==> s.persisted.token == Some(StorageString(s.user.value.token))
  }

  /** A successful sign-in: set the user, then write both storage keys. */
  function SignIn(s: Session, u: AuthUser): (r: Session)
    ensures r.user == Some(u) && !r.loading
    ensures r.persisted == Persisted(Some(StorageString(u.token)), Some(u))
    ensures TokenPersisted(r)
  {
    Session(Some(u), false, Persisted(Some(StorageString(u.token)), Some(u)))
  }

  /** `checkAuthState`: restore the session at mount. */
  function RestoreStep(s: Session, reply: Reply): (r: Session)
    ensures !r.loading
    ensures !Truthy(s.persisted.token) ==> r == s.(loading := false)
    ensures Truthy(s.persisted.token) && !(Accepted(reply) && reply.body.data.Some?) ==>
              r == Session(None, false, Persisted(None, None))
    ensures Truthy(s.persisted.token) && Accepted(reply) && reply.body.data.Some? ==>
              r.persisted == s.persisted &&
              r.user == Some(AuthUser(reply.body.data.value.id, DisplayName(reply.body.data.value),
                                      reply.body.data.value.email, RestoredTipo(reply.body.data.value),
                                      reply.body.data.value.avatar, s.persisted.token))
  {
    var token := s.persisted.token;
    if !Truthy(token) then s.(loading := false)
    else if Accepted(reply) && reply.body.data.Some? then
      var p := reply.body.data.value;
      s.(user := Some(AuthUser(p.id, DisplayName(p), p.email, RestoredTipo(p), p.avatar, token)),
         loading := false)
    else
      // a missing `data` makes `userData.id` throw, which lands in the same catch
      Session(None, false, Persisted(None, None))
  }

  /** `login`: the test table first, then the backend. Returns the new state
      and the boolean the operation resolves to. */
  function LoginStep(s: Session, c: Credentials, reply: Reply, testId: string, now: nat): (r: (Session, bool))
    ensures !r.0.loading
    ensures r.1 <==> FindAccount(TestAccounts, c).Some? || Accepted(reply)
    ensures r.1 ==> r.0.user.Some? && r.0.persisted.user == r.0.user && TokenPersisted(r.0)
    ensures FindAccount(TestAccounts, c).Some? ==>
              r.0.user == Some(TestUser(FindAccount(TestAccounts, c).value, testId, now))
    ensures FindAccount(TestAccounts, c).None? && Accepted(reply) ==>
              r.0.user == Some(BackendUser(reply.body, LoginTipo(UserData(reply.body))))
    ensures !r.1 ==> r.0 == s.(loading := false)
  {
    match FindAccount(TestAccounts, c)
    case Some(a) => (SignIn(s, TestUser(a, testId, now)), true)
    case None =>
      if Accepted(reply) then (SignIn(s, BackendUser(reply.body, LoginTipo(UserData(reply.body)))), true)
      else (s.(loading := false), false)
  }

  /** `register`: the backend only. */
  function RegisterStep(s: Session, reply: Reply): (r: (Session, bool))
    ensures !r.0.loading
    ensures r.1 <==> Accepted(reply)
    ensures r.1 ==> r.0.user == Some(BackendUser(reply.body, RegisterTipo(UserData(reply.body))))
    ensures r.1 ==> r.0.persisted.user == r.0.user && TokenPersisted(r.0)
    ensures !r.1 ==> r.0 == s.(loading := false)
  {
    if Accepted(reply) then (SignIn(s, BackendUser(reply.body, RegisterTipo(UserData(reply.body)))), true)
    else (s.(loading := false), false)
  }

  /** `logout`: clear the user and remove both keys; `loading` is untouched. */
  function LogoutStep(s: Session): (r: Session)
    ensures r.user == None && r.persisted == Persisted(None, None) && r.loading == s.loading
  {
    Session(None, s.loading, Persisted(None, None))
  }

  /** `isAdmin` of the session store. */
  predicate IsAdminUser(user: Option<AuthUser>)
    ensures IsAdminUser(user) <==> user.Some? && user.value.tipo in {"admin", "bibliotecario"}
  {
    user.Some? && (user.value.tipo == "admin" || user.value.tipo == "bibliotecario")
  }

  // ---------------------------------------------------------------------------
  // Properties of the session store

  /** With no usable token, restore only clears `loading`, and what the backend
      would have answered makes no difference: it is not consulted. */
  lemma RestoreWithoutToken(s: Session, r1: Reply, r2: Reply)
    requires !Truthy(s.persisted.token)
    ensures RestoreStep(s, r1) == RestoreStep(s, r2) == s.(loading := false)
  {
  }

  /** Restore from the state at mount: the user is set iff the stored token is
      truthy and the reply is OK with `success` and `data`; on every other path
      with a token both keys are removed; `loading` ends false. */
  lemma RestoreAtMount(p: Persisted, reply: Reply)
    ensures var r := RestoreStep(Session(None, true, p), reply);
            && !r.loading
            && (r.user.Some? <==> Truthy(p.token) && Accepted(reply) && reply.body.data.Some?)
            && (r.user.None? && Truthy(p.token) ==> r.persisted == Persisted(None, None))
            && (!Truthy(p.token) ==> r.persisted == p)
            && (r.user.Some? ==> r.persisted == p && r.user.value.token == p.token)
  {
  }

  /** The identity restore builds: display name from `nombre`, `name`,
      `username`, `email` in that order; type from `role`, `tipo`, else
      'estudiante'; the token is the stored one. */
  lemma RestoredIdentity(s: Session, reply: Reply)
    requires Truthy(s.persisted.token) && Accepted(reply) && reply.body.data.Some?
    ensures var p := reply.body.data.value;
            var u := RestoreStep(s, reply).user.value;
            && u.nombre == (if Truthy(p.nombre) then p.nombre else if Truthy(p.name) then p.name
                            else if Truthy(p.username) then p.username else p.email)
            && u.tipo == (if Truthy(p.role) then p.role.value else if Truthy(p.tipo) then p.tipo.value
                          else "estudiante")
            && u.token == s.persisted.token && u.email == p.email && u.id == p.id
  {
  }

  /** A credential pair in the test table signs in without the backend: the
      outcome is the same whatever the backend would answer; the identity takes
      the table's type and name, its token starts with "test-token-", and both
      keys are written. */
  lemma TestLogin(s: Session, c: Credentials, r1: Reply, r2: Reply, testId: string, now: nat)
    requires FindAccount(TestAccounts, c).Some?
    ensures LoginStep(s, c, r1, testId, now) == LoginStep(s, c, r2, testId, now)
    ensures var a := FindAccount(TestAccounts, c).value;
            var (t, ok) := LoginStep(s, c, r1, testId, now);
            && ok && t.user.Some?
            && t.user.value.tipo == a.tipo && t.user.value.nombre == Some(a.nombre)
            && t.user.value.email == Some(c.username) && t.user.value.id == Some(testId)
            && t.user.value.token.Some? && IsPrefix("test-token-", t.user.value.token.value)
            && t.persisted == Persisted(t.user.value.token, t.user)
  {
    var a := FindAccount(TestAccounts, c).value;
    var tok := "test-token-" + NatToString(now);
    assert tok[..|"test-token-"|] == "test-token-";
  }

  /** The two documented test accounts sign in as 'admin' and 'estudiante'. */
  lemma TestAccountsRoles(s: Session, reply: Reply, testId: string, now: nat)
    ensures var (t, ok) := LoginStep(s, Credentials("admin2@bibliotec.com", "admin123"), reply, testId, now);
            ok && t.user.Some? && t.user.value.tipo == "admin" && IsAdminUser(t.user)
    ensures var (t, ok) := LoginStep(s, Credentials("usuario@test.com", "user123"), reply, testId, now);
            ok && t.user.Some? && t.user.value.tipo == "estudiante" && !IsAdminUser(t.user)
  {
    assert AccountMatches(TestAccounts[0], Credentials("admin2@bibliotec.com", "admin123"));
    assert AccountMatches(TestAccounts[1], Credentials("usuario@test.com", "user123"));
  }

  /** Outside the test table, login succeeds iff the reply is OK with
      `success`; the type is `role`, else `tipo`, else 'admin' for the
      override address or an email containing "admin", else 'estudiante'. */
  lemma BackendLogin(s: Session, c: Credentials, reply: Reply, testId: string, now: nat)
    requires FindAccount(TestAccounts, c).None?
    ensures var (t, ok) := LoginStep(s, c, reply, testId, now);
            && (ok <==> Accepted(reply))
            && (ok ==> var u := UserData(reply.body);
                       t.user.value.tipo ==
                         (if Truthy(u.role) then u.role.value
                          else if Truthy(u.tipo) then u.tipo.value
                          else if u.email == Some(AdminOverrideEmail) ||
                                  (u.email.Some? && Contains(u.email.value, "admin")) then "admin"
                          else "estudiante"))
            && (ok ==> t.persisted.token == Some(StorageString(ReplyToken(reply.body))))
            && (ok ==> var u := UserData(reply.body);
                       && t.user.value.nombre ==
                            (if Truthy(u.nombre) then u.nombre else if Truthy(u.name) then u.name
                             else if Truthy(u.username) then u.username else u.email)
                       && t.user.value.id == u.id && t.user.value.email == u.email
                       && t.user.value.avatar == u.avatar && t.user.value.token == ReplyToken(reply.body))
  {
  }

  /** A failed login or registration leaves the user (a prior one survives)
      and both storage keys as they were. */
  lemma FailureWritesNothing(s: Session, c: Credentials, reply: Reply, testId: string, now: nat)
    ensures !LoginStep(s, c, reply, testId, now).1 ==>
              LoginStep(s, c, reply, testId, now).0.user == s.user &&
              LoginStep(s, c, reply, testId, now).0.persisted == s.persisted
    ensures !RegisterStep(s, reply).1 ==>
              RegisterStep(s, reply).0.user == s.user && RegisterStep(s, reply).0.persisted == s.persisted
  {
  }

  /** Registration ignores the email: without `role` and `tipo` the type is
      'estudiante' even for the override address. */
  lemma RegisterHasNoEmailHeuristic(s: Session, reply: Reply)
    requires Accepted(reply)
    requires !Truthy(UserData(reply.body).role) && !Truthy(UserData(reply.body).tipo)
    ensures RegisterStep(s, reply).0.user.value.tipo == "estudiante"
  {
  }

  /** Logging out twice leaves the same state as logging out once. */
  lemma LogoutIdempotent(s: Session)
    ensures LogoutStep(LogoutStep(s)) == LogoutStep(s)
    ensures LogoutStep(s).user == None && !IsAdminUser(LogoutStep(s).user)
  {
  }

  /** `isAdmin` accepts exactly 'admin' and 'bibliotecario'; 'administrador'
      is not an administrator for the session store. */
  lemma IsAdminTypes(u: AuthUser)
    ensures IsAdminUser(Some(u)) <==> u.tipo in {"admin", "bibliotecario"}
    ensures u.tipo == "administrador" ==> !IsAdminUser(Some(u))
    ensures !IsAdminUser(None)
  {
  }

  /** Every operation keeps the persisted token equal to the user's token. */
  lemma TokenPersistedPreserved(s: Session, c: Credentials, reply: Reply, testId: string, now: nat)
    requires TokenPersisted(s)
    ensures TokenPersisted(RestoreStep(s, reply))
    ensures TokenPersisted(LoginStep(s, c, reply, testId, now).0)
    ensures TokenPersisted(RegisterStep(s, reply).0)
    ensures TokenPersisted(LogoutStep(s))
  {
  }

  /** Round trip: after a backend login whose user carries `role` or `tipo`, a
      fresh process that restores from the persisted token, against a profile
      reply with the same user fields, rebuilds the same type and so the same
      administrator classification. */
  lemma LoginRestoreRoundTrip(s: Session, c: Credentials, reply: Reply, testId: string, now: nat, profile: Body)
    requires FindAccount(TestAccounts, c).None? && Accepted(reply)
    requires Truthy(UserData(reply.body).role) || Truthy(UserData(reply.body).tipo)
    requires Truthy(ReplyToken(reply.body))
    requires profile.success && profile.data == Some(UserData(reply.body))
    ensures var (t, ok) := LoginStep(s, c, reply, testId, now);
            var again := RestoreStep(Session(None, true, t.persisted), Answered(true, profile));
            && again.user.Some?
            && again.user.value.tipo == t.user.value.tipo
            && again.user.value.token == t.user.value.token
            && (IsAdminUser(again.user) <==> IsAdminUser(t.user))
  {
  }

  /** The round trip does not hold for the email heuristic: a backend user with
      neither `role` nor `tipo` and an email containing "admin" logs in as
      'admin' but is restored as 'estudiante'. */
  lemma LoginRestoreRoundTripLosesEmailHeuristic(s: Session, c: Credentials, testId: string, now: nat)
    requires c.username == "admin@x.org" && c.password == "pw"
    ensures var p := Profile(None, None, None, None, Some(c.username), None, None, None, Some("tk"), None);
            var body := Body(true, Some(p), None, p);
            var (t, ok) := LoginStep(s, c, Answered(true, body), testId, now);
            var again := RestoreStep(Session(None, true, t.persisted), Answered(true, body));
            && ok && t.user.value.tipo == "admin" && IsAdminUser(t.user)
            && again.user.Some? && again.user.value.tipo == "estudiante" && !IsAdminUser(again.user)
  {
    var p := Profile(None, None, None, None, Some(c.username), None, None, None, Some("tk"), None);
    var body := Body(true, Some(p), None, p);
    assert IsPrefix("admin", c.username);
    assert LoginTipo(p) == "admin";
    assert RestoredTipo(p) == "estudiante";
    assert !AccountMatches(TestAccounts[0], c) && !AccountMatches(TestAccounts[1], c) && !AccountMatches(TestAccounts[2], c);
    assert FindAccount(TestAccounts, c).None?;
    assert ReplyToken(body) == Some("tk");
  }

  // ---------------------------------------------------------------------------
  // The browser storage and the provider

  /** `window.localStorage`, restricted to the keys `token` and `user`. It is
      one object shared by every component that reads or writes it. */
  class LocalStorage {
    var token: Option<string>
    var user: Option<AuthUser>

    constructor (p: Persisted)
      ensures token == p.token && user == p.user
    {
      token := p.token;
      user := p.user;
    }

    function Value(): Persisted
      reads this
    {
      Persisted(token, user)
    }

    method SetToken(t: string)
      modifies this`token
      ensures token == Some(t) && user == old(user)
    {
      token := Some(t);
    }

    method RemoveToken()
      modifies this`token
      ensures token == None && user == old(user)
    {
      token := None;
    }

    method SetUser(u: AuthUser)
      modifies this`user
      ensures user == Some(u) && token == old(token)
    {
      user := Some(u);
    }

    method RemoveUser()
      modifies this`user
      ensures user == None && token == old(token)
    {
      user := None;
    }
  }

  /** `AuthProvider`: the React state cells `user` and `loading`, and the
      storage it writes. */
  class AuthProvider {
    var user: Option<AuthUser>
    var loading: bool
    const storage: LocalStorage

    /** The provider mounts with no user and `loading` true. */
    constructor (storage: LocalStorage)
      ensures this.storage == storage && user == None && loading
    {
      this.storage := storage;
      user := None;
      loading := true;
    }

    function State(): Session
      reads this, storage
    {
      Session(user, loading, storage.Value())
    }

    method CheckAuthState(reply: Reply)
      modifies this, storage
      ensures State() == RestoreStep(old(State()), reply)
    {
      var token := storage.token;
      if !Truthy(token) {
        loading := false;
        return;
      }
      if Accepted(reply) && reply.body.data.Some? {
        var p := reply.body.data.value;
        user := Some(AuthUser(p.id, DisplayName(p), p.email, RestoredTipo(p), p.avatar, token));
      } else {
        storage.RemoveToken();
        storage.RemoveUser();
        user := None;
      }
      loading := false;
    }

    method Login(c: Credentials, reply: Reply, testId: string, now: nat) returns (ok: bool)
      modifies this, storage
      ensures (State(), ok) == LoginStep(old(State()), c, reply, testId, now)
    {
      loading := true;
      var testUser := FindAccount(TestAccounts, c);
      if testUser.Some? {
        var u := TestUser(testUser.value, testId, now);
        user := Some(u);
        storage.SetToken(u.token.value);
        storage.SetUser(u);
        ok := true;
      } else if Accepted(reply) {
        var u := BackendUser(reply.body, LoginTipo(UserData(reply.body)));
        user := Some(u);
        storage.SetToken(StorageString(u.token));
        storage.SetUser(u);
        ok := true;
      } else {
        ok := false;
      }
      loading := false;
    }

    method Register(reply: Reply) returns (ok: bool)
      modifies this, storage
      ensures (State(), ok) == RegisterStep(old(State()), reply)
    {
      loading := true;
      if Accepted(reply) {
        var u := BackendUser(reply.body, RegisterTipo(UserData(reply.body)));
        user := Some(u);
        storage.SetToken(StorageString(u.token));
        storage.SetUser(u);
        ok := true;
      } else {
        ok := false;
      }
      loading := false;
    }

    method Logout()
      modifies this, storage
      ensures State() == LogoutStep(old(State()))
    {
      user := None;
      storage.RemoveToken();
      storage.RemoveUser();
    }

    /** `isAdmin()`: an administrator is always signed in. */
    function IsAdmin(): (r: bool)
      reads this
      ensures r <==> IsAdminUser(user)
      ensures r ==> IsAuthenticated()
    {
      IsAdminUser(user)
    }

    /** `isAuthenticated()`. */
    function IsAuthenticated(): (r: bool)
      reads this
      ensures r <==> user.Some?
    {
      user != None
    }
  }
}
