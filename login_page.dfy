/** The login form of src/pages/Login.tsx: `handleSubmit` calls the backend
    login, stores the returned access token, fetches the profile and navigates
    by role. It writes the storage key `token` and nothing else; it never sets
    the session store's user. */
module LoginPage {
  import opened Wrappers
  import opened Text
  import opened AuthContext

  /** The part of `res.data.data` of the login call that the form reads. */
  datatype LoginRes = LoginRes(accessToken: Option<string>)

  /** The login call threw (with `err.message`, possibly absent), or returned a
      value that may be `undefined`. */
  datatype LoginReply = LoginThrew(message: Option<string>) | LoginReturned(res: Option<LoginRes>)

  /** The profile call threw, or returned a profile with an optional `role`. */
  datatype ProfileReply = ProfileThrew(message: Option<string>) | ProfileReturned(role: Option<string>)

  const InvalidCredentials := "Credenciales inválidas."
  const LoginFailed := "Error en el login"

  /** The form's administrator test on the profile role. */
  predicate IsAdminRole(role: Option<string>) {
    role == Some("administrador") || role == Some("admin") || role == Some("bibliotecario")
  }

  /** Where the form navigates after a profile was fetched. */
  function Destination(role: Option<string>): (path: string)
    ensures path == "/admin/dashboard" <==> IsAdminRole(role)
    ensures path == "/dashboard" <==> !IsAdminRole(role)
  {
    if role == Some("administrador") || role == Some("admin") || role == Some("bibliotecario")
    then "/admin/dashboard" else "/dashboard"
  }

  /** `err?.message || 'Error en el login'`. */
  function ErrorText(message: Option<string>): (r: string)
    ensures r != ""
    ensures message.Some? && message.value != "" ==> r == message.value
  {
    if message.Some? && message.value != "" then message.value else LoginFailed
  }

  /** The effect of one submission: the error text shown, the storage token
      afterwards and the navigation target, if any. */
  datatype Outcome = Outcome(error: string, token: Option<string>, navigateTo: Option<string>)

  /** `handleSubmit` as a function of the stored token and the two replies. */
  function Submit(token: Option<string>, login: LoginReply, profile: ProfileReply): (r: Outcome)
    ensures r.navigateTo.Some? <==> login.LoginReturned? && login.res.Some? &&
                                     Truthy(login.res.value.accessToken) && profile.ProfileReturned?
    ensures r.navigateTo.Some? ==> r.error == "" && r.navigateTo == Some(Destination(profile.role))
    ensures r.navigateTo.None? ==> r.error != ""
    ensures login.LoginThrew? ==> r == Outcome(ErrorText(login.message), token, None)
    ensures r.token == (if login.LoginReturned? && login.res.Some? && Truthy(login.res.value.accessToken)
                        then login.res.value.accessToken else token)
  {
    match login
    case LoginThrew(m) => Outcome(ErrorText(m), token, None)
    case LoginReturned(res) =>
      if res.Some? && Truthy(res.value.accessToken) then
        var t := res.value.accessToken;
        match profile
        case ProfileThrew(m) => Outcome(ErrorText(m), t, None)
        case ProfileReturned(role) => Outcome("", t, Some(Destination(role)))
      else Outcome(InvalidCredentials, token, None)
  }

  /** The form's state cells and the storage it writes. */
  class LoginForm {
    var username: string
    var password: string
    var error: string
    var loading: bool
    const storage: LocalStorage

    constructor (storage: LocalStorage)
      ensures this.storage == storage
      ensures username == "" && password == "" && error == "" && !loading
    {
      this.storage := storage;
      username, password, error, loading := "", "", "", false;
    }

    /** Submits the form. Only `error`, `loading` and the storage key `token`
        may change; `navigateTo` is the `navigate(...)` call made, if any. */
    method HandleSubmit(login: LoginReply, profile: ProfileReply) returns (navigateTo: Option<string>)
      modifies this`error, this`loading, storage`token
      ensures !loading
      ensures Outcome(error, storage.token, navigateTo) == Submit(old(storage.token), login, profile)
    {
      loading := true;
      error := "";
      navigateTo := None;
      match login {
        case LoginThrew(m) =>
          error := ErrorText(m);
        case LoginReturned(res) =>
          if res.Some? && Truthy(res.value.accessToken) {
            storage.SetToken(res.value.accessToken.value);
            match profile {
              case ProfileThrew(m) =>
                error := ErrorText(m);
              case ProfileReturned(role) =>
                navigateTo := Some(Destination(role));
            }
          } else {
            error := InvalidCredentials;
          }
      }
      loading := false;
    }
  }

  /** A reply without a truthy `access_token` shows 'Credenciales inválidas.',
      writes nothing and does not navigate; the profile is not fetched, so its
      reply makes no difference. */
  lemma NoTokenNoEffect(token: Option<string>, res: Option<LoginRes>, p1: ProfileReply, p2: ProfileReply)
    requires res.None? || !Truthy(res.value.accessToken)
    ensures Submit(token, LoginReturned(res), p1) == Submit(token, LoginReturned(res), p2)
              == Outcome("Credenciales inválidas.", token, None)
  {
  }

  /** When the profile call throws, the access token stays stored and the
      error is the thrown message or 'Error en el login'. */
  lemma ProfileFailureKeepsToken(token: Option<string>, t: string, m: Option<string>)
    requires t != ""
    ensures var r := Submit(token, LoginReturned(Some(LoginRes(Some(t)))), ProfileThrew(m));
            r.token == Some(t) && r.navigateTo.None? &&
            r.error == (if m.Some? && m.value != "" then m.value else "Error en el login")
  {
  }

  /** The form's administrator roles are the guard's: a profile role sends
      the user to `/admin/dashboard` iff the guard's check admits that type. */
  lemma FormRolesAreGuardRoles(role: string)
    ensures Destination(Some(role)) == "/admin/dashboard" <==>
            (role == "admin" || role == "administrador" || role == "bibliotecario")
  {
  }
}
