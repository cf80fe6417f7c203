/**
 * The earlier login reducer of Reversi/LoginCore.swift: the state has only
 * the button flag, no request-in-progress flag, and a failed login keeps
 * the password.
 */
module ReversiLoginCore {
  import opened Wrappers

  datatype LoginRequest = LoginRequest(email: string, password: string)

  /** `LoginError` carries no data. */
  datatype LoginError = LoginError

  datatype LoginState = LoginState(
    email: Option<string>,
    password: Option<string>,
    loginButtonEnabled: bool,
    error: Option<LoginError>)

  /** `LoginState()`: nothing entered, no error, the button disabled. */
  function InitialLoginState(): (s: LoginState)
    ensures s.email.None? && s.password.None? && s.error.None? && !s.loginButtonEnabled
  {
    LoginState(None, None, false, None)
  }

  datatype LoginAction =
    | EmailChanged(newEmail: Option<string>)
    | PasswordChanged(newPassword: Option<string>)
    | LoginButtonTapped(request: LoginRequest)
    | LoginResponse(succeeded: bool)
    | ErrorDismissed

  /**
   * `configureLoginButton`: with both fields present the button is enabled
   * exactly when neither is empty; with either missing nothing changes.
   */
  method ConfigureLoginButton(state: LoginState) returns (next: LoginState)
    ensures state.email.Some? && state.password.Some? ==>
      next == state.(loginButtonEnabled := state.email.value != "" && state.password.value != "")
    ensures state.email.None? || state.password.None? ==> next == state
  {
    next := state;
    if state.email.None? || state.password.None? {
      return;
    }
    var email, password := state.email.value, state.password.value;
    next := next.(loginButtonEnabled := |email| != 0 && |password| != 0);
  }

  /** `loginReducer`. */
  method LoginReducer(state: LoginState, action: LoginAction) returns (next: LoginState)
    ensures action.EmailChanged? ==>
      && next.email == action.newEmail && next.password == state.password && next.error == state.error
      && next.loginButtonEnabled ==
           if action.newEmail.Some? && state.password.Some?
           then action.newEmail.value != "" && state.password.value != "" else state.loginButtonEnabled
    ensures action.PasswordChanged? ==>
      && next.password == action.newPassword && next.email == state.email && next.error == state.error
      && next.loginButtonEnabled ==
           if state.email.Some? && action.newPassword.Some?
           then state.email.value != "" && action.newPassword.value != "" else state.loginButtonEnabled
    ensures action.LoginButtonTapped? ==> next == state.(loginButtonEnabled := false)
    // A success re-enables the button; a failure only records the error.
    ensures action.LoginResponse? && action.succeeded ==> next == state.(loginButtonEnabled := true)
    ensures action.LoginResponse? && !action.succeeded ==> next == state.(error := Some(LoginError))
    ensures action.ErrorDismissed? ==> next == state.(error := None)
  {
    next := state;
    match action
    case EmailChanged(email) =>
      next := next.(email := email);
      next := ConfigureLoginButton(next);
    case PasswordChanged(password) =>
      next := next.(password := password);
      next := ConfigureLoginButton(next);
    case LoginButtonTapped(_) =>
      next := next.(loginButtonEnabled := false);
    case LoginResponse(succeeded) =>
      if succeeded {
        next := next.(loginButtonEnabled := true);
      } else {
        next := next.(error := Some(LoginError));
      }
    case ErrorDismissed =>
      next := next.(error := None);
  }

  /**
   * From the initial state, the button is enabled only once both fields
   * have been entered, and then exactly when both are non-empty.
   */
  method EnterCredentials(email: string, password: string) returns (afterEmail: LoginState, afterPassword: LoginState)
    ensures !afterEmail.loginButtonEnabled
    ensures afterPassword.loginButtonEnabled <==> email != "" && password != ""
  {
    afterEmail := LoginReducer(InitialLoginState(), EmailChanged(Some(email)));
    afterPassword := LoginReducer(afterEmail, PasswordChanged(Some(password)));
  }
}
