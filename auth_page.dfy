/**
 * The login page: submitting clears the error and raises the loading flag,
 * the awaited login either writes the session store and navigates to the
 * rounds list or shows the failure, and the loading flag drops either way.
 */
module Auth {
  import opened Wrappers
  import opened Types
  import opened Session
  import Api

  const LoginFallbackError: string := "Ошибка входа"

  /** The message shown for a rejected login: an Error's own message, otherwise a fixed text. */
  function LoginErrorText(t: Thrown): (msg: string)
    ensures t.ErrorObject? ==> msg == t.message
    ensures t.NonError? ==> msg == LoginFallbackError
  {
    match t
    case ErrorObject(m) => m
    case NonError => LoginFallbackError
  }

  /** A login the server refuses is always explained: the page shows its body text, or "Invalid credentials" for an empty body. */
  lemma RefusedLoginIsExplained(bodyText: string)
    ensures LoginErrorText(Api.LoginFailure(bodyText)) != ""
    ensures bodyText != "" ==> LoginErrorText(Api.LoginFailure(bodyText)) == bodyText
    ensures bodyText == "" ==> LoginErrorText(Api.LoginFailure(bodyText)) == "Invalid credentials"
  {
  }

  /**
   * The session the page stores after a successful login, as written: the
   * admin flag is read from the body's `isAdmin`, and a missing field is
   * falsy, whatever `role` says.
   */
  function LoginSession(body: LoginBody): (s: Session)
    ensures s.token == Some(body.token) && s.username == Some(body.username)
    ensures s.isAdmin <==> body.isAdmin == Some(true)
    ensures Authenticated(s) <==> body.token != ""
  {
    Session(Some(body.token), Some(body.username), body.isAdmin.GetOr(false))
  }

  /**
   * A body shaped as the login response is declared (a `role`, no `isAdmin`)
   * loses the admin role: an ADMIN is stored as a non-admin.
   */
  lemma AdminRoleLost()
    ensures
      var body := LoginBody("t", "admin", Some(Admin), None);
      !LoginSession(body).isAdmin
  {
  }

  /** The intended session: the admin flag reflects the declared `role`. */
  function LoginSessionIntended(body: LoginBody): (s: Session)
    ensures s.token == Some(body.token) && s.username == Some(body.username)
    ensures s.isAdmin <==> body.role == Some(Admin)
  {
    Session(Some(body.token), Some(body.username), body.role == Some(Admin))
  }

  /**
   * The intended session agrees with the as-written one on everything but
   * the admin flag, and on that too whenever the body carries a consistent `isAdmin`.
   */
  lemma IntendedSessionAgrees(body: LoginBody)
    ensures LoginSessionIntended(body).token == LoginSession(body).token
    ensures LoginSessionIntended(body).username == LoginSession(body).username
    ensures body.isAdmin == Some(body.role == Some(Admin)) ==> LoginSessionIntended(body) == LoginSession(body)
  {
  }

  class AuthPage {
    var error: string
    var isLoading: bool
    /** The route the page last navigated to, if any. */
    var navigatedTo: Option<string>
    const store: AuthStore

    constructor (store: AuthStore)
      ensures this.store == store
      ensures error == "" && !isLoading && navigatedTo == None
    {
      this.store := store;
      error, isLoading, navigatedTo := "", false, None;
    }

    /** The submit button is enabled only while no login is in flight. */
    predicate SubmitEnabled()
      reads this
    {
      !isLoading
    }

    /**
     * The form reaches `handleSubmit` only with both `required` fields
     * filled in and the submit button enabled.
     */
    predicate SubmitAccepted(username: string, password: string)
      reads this
    {
      SubmitEnabled() && username != "" && password != ""
    }

    /**
     * `handleSubmit` up to the awaited login: clear the error and raise the
     * loading flag. An empty field blocks the form's submission, and the
     * button is disabled while a login is in flight; either way a submit
     * then starts nothing.
     */
    method StartSubmit(username: string, password: string) returns (sent: bool)
      modifies this
      ensures sent <==> old(SubmitEnabled()) && username != "" && password != ""
      ensures sent ==> error == "" && isLoading && navigatedTo == old(navigatedTo)
      ensures !sent ==> error == old(error) && isLoading == old(isLoading) && navigatedTo == old(navigatedTo)
    {
      sent := SubmitAccepted(username, password);
      if sent {
        error := "";
        isLoading := true;
      }
    }

    /**
     * `handleSubmit` after the awaited login: on success store the session
     * and go to the rounds list; on failure show the error, leaving the store
     * and the route alone. Loading ends in both cases.
     */
    method CompleteSubmit(outcome: Outcome<LoginBody>)
      requires isLoading && store.Valid()
      modifies this, store
      ensures !isLoading && store.Valid()
      ensures outcome.Ok? ==>
        && store.Current() == LoginSession(outcome.value)
        && navigatedTo == Some("/rounds")
        && error == old(error)
      ensures outcome.Err? ==>
        && unchanged(store)
        && navigatedTo == old(navigatedTo)
        && error == LoginErrorText(outcome.thrown)
    {
      match outcome {
        case Ok(body) =>
          var s := LoginSession(body);
          store.SetAuth(body.token, body.username, s.isAdmin);
          navigatedTo := Some("/rounds");
        case Err(thrown) =>
          error := LoginErrorText(thrown);
      }
      isLoading := false;
    }
  }

  /**
   * One submission on a fresh page with an empty store. With a field left
   * empty nothing is sent and nothing changes. Otherwise a successful login
   * stores the session and lands on "/rounds" with no error; a failed one
   * shows the error, leaves the store empty and stays on the login page.
   */
  method SubmitOnce(username: string, password: string, outcome: Outcome<LoginBody>)
    returns (sent: bool, stored: Session, route: Option<string>, shown: string)
    ensures sent <==> username != "" && password != ""
    ensures !sent ==> stored == Initial && route == None && shown == ""
    ensures sent && outcome.Ok? ==> stored == LoginSession(outcome.value) && route == Some("/rounds") && shown == ""
    ensures sent && outcome.Err? ==> stored == Initial && route == None && shown == LoginErrorText(outcome.thrown)
  {
    var store := new AuthStore();
    var page := new AuthPage(store);
    sent := page.StartSubmit(username, password);
    if sent {
      page.CompleteSubmit(outcome);
    }
    stored, route, shown := store.Current(), page.navigatedTo, page.error;
  }
}
