/**
 * The login screen reducer of Login/LoginCore.swift. The login request
 * itself (a network call with a random outcome) is left out; its response
 * arrives as an action carrying success or failure.
 */
module LoginCore {
  import opened Wrappers

  datatype LoginRequest = LoginRequest(email: string, password: string)

  /** `LoginError` carries no data. */
  datatype LoginError = LoginError

  datatype LoginState = LoginState(
    email: Option<string>,
    password: Option<string>,
    canRequestLogin: bool,
    loginRequesting: bool,
    error: Option<LoginError>)

  /** `init`: the button flag becomes `canRequestLogin`; no request is running. */
  function NewLoginState(email: Option<string>, password: Option<string>, loginButtonEnabled: bool,
                         error: Option<LoginError>): (s: LoginState)
    ensures s.email == email && s.password == password && s.error == error
    ensures s.canRequestLogin == loginButtonEnabled && !s.loginRequesting
  {
    LoginState(email, password, loginButtonEnabled, false, error)
  }

  /** `LoginState()`: nothing entered, the button disabled. */
  function DefaultLoginState(): LoginState
  {
    NewLoginState(None, None, false, None)
  }

  /** The login button rule: both fields present and neither empty. */
  predicate ButtonEnabledFor(email: string, password: string)
  {
    email != "" && password != ""
  }

  datatype LoginAction =
    | EmailChanged(newEmail: Option<string>)
    | PasswordChanged(newPassword: Option<string>)
    | RequestLogin(request: LoginRequest)
    | LoginResponse(succeeded: bool)
    | ErrorDismissed

  /**
   * `configureLoginButton`: with both fields present the flag follows the
   * rule; with either missing nothing changes.
   */
  method ConfigureLoginButton(state: LoginState) returns (next: LoginState)
    ensures state.email.Some? && state.password.Some? ==>
      next == state.(canRequestLogin := ButtonEnabledFor(state.email.value, state.password.value))
    ensures state.email.None? || state.password.None? ==> next == state
  {
    next := state;
    if state.email.None? || state.password.None? {
      return;
    }
    var email, password := state.email.value, state.password.value;
    next := next.(canRequestLogin := |email| != 0 && |password| != 0);
  }

  /** `loginReducer`. */
  method LoginReducer(state: LoginState, action: LoginAction) returns (next: LoginState)
    ensures action.EmailChanged? ==>
      && next.email == action.newEmail && next.password == state.password
      && next.loginRequesting == state.loginRequesting && next.error == state.error
      && next.canRequestLogin ==
           if action.newEmail.Some? && state.password.Some?
           then ButtonEnabledFor(action.newEmail.value, state.password.value) else state.canRequestLogin
    ensures action.PasswordChanged? ==>
      && next.password == action.newPassword && next.email == state.email
      && next.loginRequesting == state.loginRequesting && next.error == state.error
      && next.canRequestLogin ==
           if state.email.Some? && action.newPassword.Some?
           then ButtonEnabledFor(state.email.value, action.newPassword.value) else state.canRequestLogin
    ensures action.RequestLogin? ==> next == state.(loginRequesting := true, canRequestLogin := false)
    // A success enables the button; a failure clears the password and keeps the error.
    ensures action.LoginResponse? && action.succeeded ==>
      next == state.(canRequestLogin := true, loginRequesting := false)
    ensures action.LoginResponse? && !action.succeeded ==>
      next == state.(password := None, error := Some(LoginError), loginRequesting := false)
    ensures action.ErrorDismissed? ==> next == state.(error := None)
  {
    next := state;
    match action
    case EmailChanged(email) =>
      next := next.(email := email);
      next := ConfigureLoginButton(next);
    case PasswordChanged(password) =>
      next := next.(password := password);
      next := ConfigureLoginButton(next);
    case RequestLogin(_) =>
      next := next.(loginRequesting := true);
      next := next.(canRequestLogin := false);
    case LoginResponse(succeeded) =>
      if succeeded {
        next := next.(canRequestLogin := true);
      } else {
        next := next.(password := None);
        next := next.(error := Some(LoginError));
      }
      next := next.(loginRequesting := false);
    case ErrorDismissed =>
      next := next.(error := None);
  }

  /**
   * Whatever was typed before, entering an email and then a password enables
   * the button exactly when both are non-empty.
   */
  method TypeCredentials(state: LoginState, email: string, password: string) returns (next: LoginState)
    ensures next.canRequestLogin <==> email != "" && password != ""
    ensures next.email == Some(email) && next.password == Some(password)
  {
    next := LoginReducer(state, EmailChanged(Some(email)));
    next := LoginReducer(next, PasswordChanged(Some(password)));
  }
}
