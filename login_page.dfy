/**
 * The sign-in page (frontend/src/app/login/page.tsx): its redirect for signed-in users, the
 * placeholder shown while the session is unsettled, and the submit handler's `error`/`isLoading`
 * state across try, catch and finally.
 */
module LoginPage {
  import opened Wrappers
  import Auth

  const DEFAULT_LOGIN_ERROR := "Falha no login. Verifique suas credenciais."
  const UNEXPECTED_ERROR := "Ocorreu um erro inesperado."

  /** The effect: `/dashboard` exactly when the session has finished loading with a user. */
  function RedirectTarget(authLoading: bool, hasUser: bool): (r: Option<string>)
    ensures r.Some? <==> !authLoading && hasUser
    ensures r.Some? ==> r.value == Auth.DASHBOARD_PATH
  {
    if !authLoading && hasUser then Some(Auth.DASHBOARD_PATH) else None
  }

  /** The placeholder replaces the form while the session loads or once a user is present. */
  predicate ShowsPlaceholder(authLoading: bool, hasUser: bool) {
    authLoading || hasUser
  }

  /** The message shown for what `login` rejected with. */
  function SubmitErrorMessage(thrown: Auth.Thrown): (m: string)
    ensures m != ""
    ensures thrown.ErrorObject? && thrown.message != "" ==> m == thrown.message
    ensures thrown.ErrorObject? && thrown.message == "" ==> m == DEFAULT_LOGIN_ERROR
    ensures thrown.OtherValue? ==> m == UNEXPECTED_ERROR
  {
    match thrown
    case ErrorObject(message) => if message != "" then message else DEFAULT_LOGIN_ERROR
    case OtherValue => UNEXPECTED_ERROR
  }

  /** The redirect fires exactly when the form is hidden for a settled session. */
  lemma RedirectOnlyBehindPlaceholder(authLoading: bool, hasUser: bool)
    ensures RedirectTarget(authLoading, hasUser).Some? ==> ShowsPlaceholder(authLoading, hasUser)
    ensures !ShowsPlaceholder(authLoading, hasUser) ==> Auth.RedirectTarget(authLoading, hasUser, Auth.LOGIN_PATH).None?
  {
  }

  /** The form's own state. */
  class LoginForm {
    var error: string
    var isLoading: bool

    constructor ()
      ensures error == "" && !isLoading
    {
      error, isLoading := "", false;
    }

    /** `disabled={isLoading}` on the submit button. */
    predicate SubmitDisabled()
      reads this
    {
      isLoading
    }

    /**
     * `handleSubmit`; `outcome` is how the awaited `login` settled (`None` when it resolved).
     * `atCall` is the form's state at the moment `login` is called.
     */
    method HandleSubmit(outcome: Option<Auth.Thrown>) returns (atCall: (string, bool))
      modifies this
      ensures atCall == ("", true)
      ensures !isLoading && !SubmitDisabled()
      ensures error == (match outcome case None => "" case Some(t) => SubmitErrorMessage(t))
    {
      error := "";
      isLoading := true;
      atCall := (error, isLoading);
      match outcome {
        case None =>
        case Some(err) =>
          match err {
            case ErrorObject(message) =>
              error := if message != "" then message else DEFAULT_LOGIN_ERROR;
            case OtherValue =>
              error := UNEXPECTED_ERROR;
          }
      }
      isLoading := false;
    }
  }
}
