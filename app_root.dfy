/**
 * The top-level reducer of App/AppCore.swift: it shows either the login
 * screen or the game screen. Only its own switch is modelled; the login
 * and game reducers it forwards to are modelled in `LoginCore` and
 * `GameCore`. The follow-up action is returned where the effect maps any
 * outcome to one fixed action.
 */
module AppRoot {
  import opened Wrappers
  import LoginCore
  import GameCore

  datatype AppState = AppState(login: Option<LoginCore.LoginState>, game: Option<GameCore.GameState>)

  /** Exactly one screen is shown. */
  predicate OneScreen(state: AppState)
  {
    state.login.Some? != state.game.Some?
  }

  datatype AppAction =
    | AppLaunch
    | LoadLoginStateResponse(loggedIn: bool)
    | LoginActionResponse
    | LogoutActionResponse
    | Login(loginAction: LoginCore.LoginAction)
    | Game(gameAction: GameCore.GameAction)

  /** The game screen with a new `GameState()`, and no login screen. */
  function GameScreen(): AppState
  {
    AppState(None, Some(GameCore.DefaultState()))
  }

  /** The login screen with a new `LoginState()`, and no game screen. */
  function LoginScreen(): AppState
  {
    AppState(Some(LoginCore.DefaultLoginState()), None)
  }

  /** The top-level switch of `appReducer`. */
  method AppReducer(state: AppState, action: AppAction) returns (next: AppState, sent: Option<AppAction>)
    ensures action.LoadLoginStateResponse? ==>
      sent == None && next == if action.loggedIn then GameScreen() else LoginScreen()
    ensures action.LoginActionResponse? ==> sent == None && next == GameScreen()
    ensures action.LogoutActionResponse? ==> sent == None && next == LoginScreen()
    ensures action.LoadLoginStateResponse? || action.LoginActionResponse? || action.LogoutActionResponse? ==>
      OneScreen(next)
    // Launching and forwarded actions leave both screens alone at this level.
    ensures action.AppLaunch? || action.Login? || action.Game? ==> next == state
    ensures action.AppLaunch? ==> sent == None
    ensures action.Login? ==>
      sent == if action.loginAction == LoginCore.LoginResponse(true) then Some(LoginActionResponse) else None
    ensures action.Game? ==>
      sent == if action.gameAction.LogoutButtonTapped? then Some(LogoutActionResponse) else None
  {
    next, sent := state, None;
    match action
    case AppLaunch =>
    case LoadLoginStateResponse(loggedIn) =>
      if loggedIn {
        next := next.(game := Some(GameCore.DefaultState()));
        next := next.(login := None);
      } else {
        next := next.(game := None);
        next := next.(login := Some(LoginCore.DefaultLoginState()));
      }
    case LoginActionResponse =>
      next := next.(game := Some(GameCore.DefaultState()));
      next := next.(login := None);
    case LogoutActionResponse =>
      next := next.(game := None);
      next := next.(login := Some(LoginCore.DefaultLoginState()));
    case Login(loginAction) =>
      if loginAction == LoginCore.LoginResponse(true) {
        sent := Some(LoginActionResponse);
      }
    case Game(gameAction) =>
      if gameAction.LogoutButtonTapped? {
        sent := Some(LogoutActionResponse);
      }
  }

  /**
   * Once a screen is shown, every action keeps exactly one screen shown,
   * and the follow-up actions lead to one screen too.
   */
  method ScreensStayExclusive(state: AppState, action: AppAction) returns (next: AppState)
    requires OneScreen(state)
    ensures OneScreen(next)
  {
    var sent;
    next, sent := AppReducer(state, action);
    if sent.Some? {
      next, sent := AppReducer(next, sent.value);
    }
  }
}
