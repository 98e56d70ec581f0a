/**
 * The client's session provider (frontend/src/lib/auth.tsx): the state `{user, token, loading}`,
 * restored once from browser storage at start-up, written by `login`, cleared by `logout`, and the
 * redirect rule that sends anonymous visitors to `/login` and signed-in users away from it.
 *
 * Browser storage is a `map<string, string>`; `JSON.parse` and `JSON.stringify` are the parameters
 * `parse` and `serialize`; the router is the field `navigation`, the last push or replace issued.
 */
module Auth {
  import opened Wrappers

  const TOKEN_KEY := "authToken"
  const USER_KEY := "authUser"
  const LOGIN_PATH := "/login"
  const DASHBOARD_PATH := "/dashboard"

  /** The user kept in memory: exactly the four fields that `login` copies from the answer. */
  datatype User = User(id: int, nome: string, email: string, role: string)

  /** The `data` of the login answer: the token beside the user's own fields. */
  datatype AuthData = AuthData(token: string, id: int, nome: string, email: string, role: string)

  /** A value thrown in JavaScript: an `Error` carrying a message, or any other value. */
  datatype Thrown = ErrorObject(message: string) | OtherValue

  /** What the login API call did: it answered, or it threw. */
  datatype LoginCall = Answered(data: AuthData) | Threw(error: Thrown)

  /** A navigation issued through the router. */
  datatype Navigation = Push(path: string) | Replace(path: string)

  /** The provider's state together with the storage it mirrors and the router's last navigation. */
  datatype Session = Session(
    user: Option<User>,
    token: Option<string>,
    loading: bool,
    storage: map<string, string>,
    navigation: Option<Navigation>)

  /** `localStorage.getItem(key)` is truthy: the key is present with a non-empty value. */
  predicate Stored(storage: map<string, string>, key: string) {
    key in storage && storage[key] != ""
  }

  /** The user built from the login answer: the token is left out. */
  function UserOf(data: AuthData): User {
    User(data.id, data.nome, data.email, data.role)
  }

  /** The state at mount: no user, no token, loading. */
  function Initial(storage: map<string, string>): (s: Session)
    ensures s.user.None? && s.token.None? && s.loading
    ensures s.storage == storage && s.navigation.None?
  {
    Session(None, None, true, storage, None)
  }

  /** `!!token && !!user`. */
  predicate IsAuthenticated(s: Session) {
    s.token.Some? && s.token.value != "" && s.user.Some?
  }

  /**
   * The start-up effect: when both keys hold non-empty strings and the user string parses, token and
   * user are taken from storage; when it does not parse, both keys are removed; otherwise nothing
   * but `loading` changes. Loading ends on every branch.
   */
  function AfterRestore(s: Session, parse: string -> Option<User>): (t: Session)
    ensures !t.loading && t.navigation == s.navigation
    ensures Stored(s.storage, TOKEN_KEY) && Stored(s.storage, USER_KEY) && parse(s.storage[USER_KEY]).Some? ==>
      t.token == Some(s.storage[TOKEN_KEY]) && t.user == parse(s.storage[USER_KEY]) && t.storage == s.storage
    ensures Stored(s.storage, TOKEN_KEY) && Stored(s.storage, USER_KEY) && parse(s.storage[USER_KEY]).None? ==>
      t.token == s.token && t.user == s.user && t.storage == s.storage - {TOKEN_KEY, USER_KEY}
    ensures !(Stored(s.storage, TOKEN_KEY) && Stored(s.storage, USER_KEY)) ==> t == s.(loading := false)
  {
    if Stored(s.storage, TOKEN_KEY) && Stored(s.storage, USER_KEY) then
      match parse(s.storage[USER_KEY])
      case Some(u) => s.(token := Some(s.storage[TOKEN_KEY]), user := Some(u), loading := false)
      case None => s.(storage := s.storage - {TOKEN_KEY} - {USER_KEY}, loading := false)
    else s.(loading := false)
  }

  /**
   * The redirect effect's decision: nothing while loading; `/login` for an anonymous visitor
   * anywhere else; `/dashboard` for a signed-in user on `/login`; otherwise nothing.
   */
  function RedirectTarget(loading: bool, hasUser: bool, pathname: string): (r: Option<string>)
    ensures loading ==> r.None?
    ensures !loading && !hasUser && pathname != LOGIN_PATH ==> r == Some(LOGIN_PATH)
    ensures !loading && hasUser && pathname == LOGIN_PATH ==> r == Some(DASHBOARD_PATH)
    ensures r.Some? <==> !loading && (hasUser <==> pathname == LOGIN_PATH)
  {
    if loading then None
    else if !hasUser && pathname != LOGIN_PATH then Some(LOGIN_PATH)
    else if hasUser && pathname == LOGIN_PATH then Some(DASHBOARD_PATH)
    else None
  }

  /** The redirect effect applied: `router.replace` when the rule asks for it. */
  function AfterRedirect(s: Session, pathname: string): Session {
    match RedirectTarget(s.loading, s.user.Some?, pathname)
    case Some(target) => s.(navigation := Some(Replace(target)))
    case None => s
  }

  /** The storage written by a successful `login`. */
  function StorageAfterLogin(storage: map<string, string>, token: string, userJson: string): map<string, string> {
    storage[TOKEN_KEY := token][USER_KEY := userJson]
  }

  /**
   * `login`: on an answer, user and token are set in memory and in storage together and the router
   * pushes `/dashboard`; when the API call throws, the error is re-thrown and nothing changes.
   */
  function AfterLogin(s: Session, call: LoginCall, serialize: User -> string): (r: (Session, Option<Thrown>))
    ensures call.Threw? ==> r.0 == s && r.1 == Some(call.error)
    ensures call.Answered? ==> r.1.None?
    ensures call.Answered? ==> r.0.user == Some(UserOf(call.data)) && r.0.token == Some(call.data.token)
    ensures call.Answered? ==> r.0.storage == StorageAfterLogin(s.storage, call.data.token, serialize(UserOf(call.data)))
    ensures call.Answered? ==> r.0.navigation == Some(Push(DASHBOARD_PATH)) && r.0.loading == s.loading
  {
    match call
    case Threw(e) => (s, Some(e))
    case Answered(data) =>
      var u := UserOf(data);
      (s.(user := Some(u), token := Some(data.token),
          storage := StorageAfterLogin(s.storage, data.token, serialize(u)),
          navigation := Some(Push(DASHBOARD_PATH))), None)
  }

  /** `logout`: user and token cleared, both keys removed, the router pushes `/login`. */
  function AfterLogout(s: Session): (t: Session)
    ensures t.user.None? && t.token.None? && !IsAuthenticated(t)
    ensures t.storage == s.storage - {TOKEN_KEY, USER_KEY}
    ensures TOKEN_KEY !in t.storage && USER_KEY !in t.storage
    ensures t.navigation == Some(Push(LOGIN_PATH)) && t.loading == s.loading
  {
    s.(user := None, token := None, storage := s.storage - {TOKEN_KEY} - {USER_KEY},
       navigation := Some(Push(LOGIN_PATH)))
  }

  /** Logging out twice leaves the same state as logging out once. */
  lemma LogoutIdempotent(s: Session)
    ensures AfterLogout(AfterLogout(s)) == AfterLogout(s)
  {
    var once := AfterLogout(s).storage;
    assert once - {TOKEN_KEY} - {USER_KEY} == once;
  }

  /**
   * A reload after a successful login restores exactly the user and token that login set, provided
   * `parse` reads back what `serialize` wrote and the token is not empty.
   */
  lemma ReloadAfterLogin(s: Session, data: AuthData, serialize: User -> string, parse: string -> Option<User>)
    requires parse(serialize(UserOf(data))) == Some(UserOf(data))
    requires data.token != "" && serialize(UserOf(data)) != ""
    ensures var after := AfterLogin(s, Answered(data), serialize).0;
            var reloaded := AfterRestore(Initial(after.storage), parse);
            reloaded.user == after.user && reloaded.token == after.token && IsAuthenticated(reloaded)
  {
  }

  /**
   * An empty token from the API is kept in memory but is falsy: the session is not authenticated,
   * and a reload does not restore it.
   */
  lemma EmptyTokenIsNotASession(s: Session, data: AuthData, serialize: User -> string, parse: string -> Option<User>)
    requires data.token == ""
    ensures var after := AfterLogin(s, Answered(data), serialize).0;
            !IsAuthenticated(after) && AfterRestore(Initial(after.storage), parse).user.None?
  {
  }

  /** A token with an unparsable user at start-up: storage is cleared and nobody is signed in. */
  lemma CorruptedStorageRecovery(storage: map<string, string>, parse: string -> Option<User>)
    requires Stored(storage, TOKEN_KEY) && Stored(storage, USER_KEY) && parse(storage[USER_KEY]).None?
    ensures var t := AfterRestore(Initial(storage), parse);
            !IsAuthenticated(t) && TOKEN_KEY !in t.storage && USER_KEY !in t.storage && !t.loading
  {
  }

  /** Once the start-up check is over, an anonymous visitor is sent to `/login` from every other page. */
  lemma AnonymousVisitorIsSentToLogin(storage: map<string, string>, parse: string -> Option<User>, pathname: string)
    requires !(Stored(storage, TOKEN_KEY) && Stored(storage, USER_KEY) && parse(storage[USER_KEY]).Some?)
    requires pathname != LOGIN_PATH
    ensures AfterRedirect(AfterRestore(Initial(storage), parse), pathname).navigation == Some(Replace(LOGIN_PATH))
  {
  }

  /** The provider as the component holds it: state that the setters and storage calls update. */
  class AuthProvider {
    var user: Option<User>
    var token: Option<string>
    var loading: bool
    var storage: map<string, string>
    var navigation: Option<Navigation>

    function State(): Session
      reads this
    {
      Session(user, token, loading, storage, navigation)
    }

    constructor (storage: map<string, string>)
      ensures State() == Initial(storage)
    {
      user, token, loading := None, None, true;
      this.storage := storage;
      navigation := None;
    }

    /** The start-up effect (auth.tsx lines 18-36). */
    method RestoreFromStorage(parse: string -> Option<User>)
      modifies this
      ensures State() == AfterRestore(old(State()), parse)
    {
      var storedToken := if TOKEN_KEY in storage then Some(storage[TOKEN_KEY]) else None;
      var storedUser := if USER_KEY in storage then Some(storage[USER_KEY]) else None;
      if storedToken.Some? && storedToken.value != "" && storedUser.Some? && storedUser.value != "" {
        var parsed := parse(storedUser.value);
        if parsed.Some? {
          token := storedToken;
          user := parsed;
        } else {
          storage := storage - {TOKEN_KEY};
          storage := storage - {USER_KEY};
        }
      }
      loading := false;
    }

    /** The redirect effect, run with the current pathname. */
    method RedirectEffect(pathname: string)
      modifies this`navigation
      ensures State() == AfterRedirect(old(State()), pathname)
    {
      if !loading {
        var isAuthPage := pathname == LOGIN_PATH;
        if user.None? && !isAuthPage {
          navigation := Some(Replace(LOGIN_PATH));
        } else if user.Some? && isAuthPage {
          navigation := Some(Replace(DASHBOARD_PATH));
        }
      }
    }

    /** `login`; `rethrown` is what the caller's `await` rejects with. */
    method Login(call: LoginCall, serialize: User -> string) returns (rethrown: Option<Thrown>)
      modifies this
      ensures (State(), rethrown) == AfterLogin(old(State()), call, serialize)
    {
      match call {
        case Threw(e) =>
          rethrown := Some(e);
        case Answered(data) =>
          var loggedInUser := User(data.id, data.nome, data.email, data.role);
          user := Some(loggedInUser);
          token := Some(data.token);
          storage := storage[TOKEN_KEY := data.token];
          storage := storage[USER_KEY := serialize(loggedInUser)];
          navigation := Some(Push(DASHBOARD_PATH));
          rethrown := None;
      }
    }

    method Logout()
      modifies this
      ensures State() == AfterLogout(old(State()))
    {
      user := None;
      token := None;
      storage := storage - {TOKEN_KEY};
      storage := storage - {USER_KEY};
      navigation := Some(Push(LOGIN_PATH));
    }
  }
}
