/**
 * The earlier reducer of Reversi/AppCore.swift. Its state has no
 * `playingAsComputer`; a tap is played inside the reducer (`playTurn`)
 * instead of being handed on through `placeDisk`/`updateState`, and the
 * decisions "game over" and "pass" are taken on the board BEFORE the tap
 * is played.
 */
module AppCore {
  import opened Wrappers
  import opened DiskColors
  import opened Boards
  import opened ReversiSpecification
  import opened GamePlayers
  import opened DiskPositions
  import GameCore

  datatype AppState = AppState(
    board: Disks,
    players: GameCore.Players,
    turn: Option<Disk>,
    shouldSkip: bool,
    currentTapPosition: Option<DiskPosition>)

  /** `intialState`: the reset board, two manual players, dark to move. */
  function InitialState(): (s: AppState)
    ensures s.board == InitialDisks() && s.players == [Manual, Manual] && s.turn == Some(Dark)
    ensures !s.shouldSkip && s.currentTapPosition == None
  {
    AppState(InitialDisks(), [Manual, Manual], Some(Dark), false, None)
  }

  /** The same fields seen as a state of the later reducer, with no computer playing. */
  function AsGameState(s: AppState): GameCore.GameState
  {
    GameCore.GameState(s.board, s.players, s.turn, s.shouldSkip, s.currentTapPosition, None)
  }

  /** `isGameEnd`: no turn, or neither colour can move. */
  predicate IsGameEnd(state: AppState)
  {
    match state.turn
    case None => true
    case Some(turn) => MovesOf(state.board, turn.Flipped()) == [] && MovesOf(state.board, turn) == []
  }

  /** `playTurn`, as a value. */
  function PlayedTurn(state: AppState, position: DiskPosition): AppState
  {
    match state.turn
    case None => state
    case Some(turn) =>
      var flips := Flips(state.board, turn, position.x, position.y);
      if flips == [] then state
      else
        state.(
          currentTapPosition := Some(position),
          board := WithDisks(WithDisk(state.board, turn, position.x, position.y), turn, flips),
          turn := Some(turn.Flipped()))
  }

  /**
   * Both generations agree on the game: playing a tap here and placing a
   * disk in the later reducer give the same board, turn and tap, and the
   * same end-of-game verdict.
   */
  lemma AgreesWithGameCore(state: AppState, position: DiskPosition)
    ensures AsGameState(PlayedTurn(state, position)) == GameCore.AfterDiskPlaced(AsGameState(state), position)
    ensures IsGameEnd(state) <==> GameCore.IsGameEnd(AsGameState(state))
  {
  }

  /**
   * `playTurn` on a legal tap: the tapped and flipped cells take the mover's
   * colour, nothing else on the board changes, and the other colour moves next.
   */
  lemma {:induction false} PlayedTurnEffect(state: AppState, position: DiskPosition)
    ensures state.turn.None? || Flips(state.board, state.turn.value, position.x, position.y) == [] ==>
      PlayedTurn(state, position) == state
    ensures state.turn.Some? && Flips(state.board, state.turn.value, position.x, position.y) != [] ==>
      var turn := state.turn.value;
      var after := PlayedTurn(state, position);
      && after.turn == Some(turn.Flipped())
      && after.currentTapPosition == Some(position)
      && after.players == state.players && after.shouldSkip == state.shouldSkip
      && (forall x, y :: DiskAt(after.board, x, y) ==
            if IsInRange(x, y) &&
               (Position(x, y) == Position(position.x, position.y) ||
                Position(x, y) in Flips(state.board, turn, position.x, position.y))
            then Some(turn) else DiskAt(state.board, x, y))
  {
    AgreesWithGameCore(state, position);
    GameCore.AfterDiskPlacedEffect(AsGameState(state), position);
  }

  /** `playTurn`: place, then one `setDisk` per flipped cell. */
  method PlayTurn(state: AppState, position: DiskPosition) returns (next: AppState)
    ensures next == PlayedTurn(state, position)
  {
    next := state;
    if next.turn.None? {
      return;
    }
    var turn := next.turn.value;
    var diskCoordinates := FlippedDiskCoordinatesByPlacingDisk(turn, position.x, position.y, next.board);
    if diskCoordinates == [] {
      return;
    }
    next := next.(currentTapPosition := Some(position));
    next := next.(board := WithDisk(next.board, turn, position.x, position.y));
    ghost var placed := next.board;
    for i := 0 to |diskCoordinates|
      invariant next == state.(currentTapPosition := Some(position), board := next.board)
      invariant next.board == WithDisks(placed, turn, diskCoordinates[..i])
    {
      assert diskCoordinates[..i + 1][..i] == diskCoordinates[..i];
      next := next.(board := WithDisk(next.board, turn, diskCoordinates[i].x, diskCoordinates[i].y));
    }
    assert diskCoordinates[..|diskCoordinates|] == diskCoordinates;
    next := next.(turn := Some(turn.Flipped()));
  }

  /** `AppAction`. A load response carries the loaded state, or None on failure. */
  datatype AppAction =
    | GameStarted
    | DiskPlaced(position: DiskPosition)
    | ResetTapped
    | PlayerChanged(disk: Disk, player: PlayerType)
    | LoadGameResponse(loaded: Option<AppState>)
    | SaveGame
    | SaveGameResponse(saved: bool)
    | ComputerPlay
    | ComputerPlayResponse(choice: Option<DiskPosition>)
    | TurnSkipped

  /**
   * `appReducer`. `computerPlay` force-unwraps the turn, so the reducer may
   * only receive it while a turn is set.
   */
  method AppReducer(state: AppState, action: AppAction) returns (next: AppState, sent: Option<AppAction>)
    requires action.ComputerPlay? ==> state.turn.Some?
    ensures action.GameStarted? || action.SaveGame? || action.SaveGameResponse? || action.ComputerPlay? ==>
      next == state && sent == None
    ensures action.ResetTapped? ==> next == state && sent == Some(GameStarted)
    // A tap is judged on the board before it is played: game over, then a
    // pass when the OTHER colour has no move, and only otherwise the move.
    ensures action.DiskPlaced? && state.turn.None? ==> next == state && sent == None
    ensures action.DiskPlaced? && state.turn.Some? ==>
      sent == Some(SaveGame) &&
      next == if IsGameEnd(state) then state.(turn := None)
              else if MovesOf(state.board, state.turn.value.Flipped()) == [] then state.(shouldSkip := true)
              else PlayedTurn(state, action.position)
    ensures action.PlayerChanged? ==>
      sent == Some(SaveGame) && next == state.(players := state.players[action.disk.Index() := action.player])
    ensures action.LoadGameResponse? ==>
      sent == Some(SaveGame) && next == if action.loaded.Some? then action.loaded.value else InitialState()
    ensures action.ComputerPlayResponse? ==>
      sent == Some(SaveGame) &&
      next == if action.choice.Some? then PlayedTurn(state, action.choice.value)
              else if IsGameEnd(state) then state.(turn := None)
              else state.(shouldSkip := true)
    ensures action.TurnSkipped? ==>
      next == state.(shouldSkip := false, turn := GameCore.FlipTurn(state.turn)) &&
      sent == if next.turn.Some? && state.players[next.turn.value.Index()] == Computer
              then Some(ComputerPlay) else Some(SaveGame)
  {
    next, sent := state, None;
    match action
    case GameStarted =>
    case DiskPlaced(position) =>
      if state.turn.None? {
        return;
      }
      var turn := state.turn.value;
      var opponentMoves := ValidMoves(turn.Flipped(), state.board);
      var ownMoves := ValidMoves(turn, state.board);
      if opponentMoves == [] && ownMoves == [] {
        next := next.(turn := None);
      } else if opponentMoves == [] {
        next := next.(shouldSkip := true);
      } else {
        next := PlayTurn(next, position);
      }
      sent := Some(SaveGame);
    case ResetTapped =>
      sent := Some(GameStarted);
    case PlayerChanged(disk, player) =>
      next := next.(players := next.players[disk.Index() := player]);
      sent := Some(SaveGame);
    case LoadGameResponse(loaded) =>
      next := if loaded.Some? then loaded.value else InitialState();
      sent := Some(SaveGame);
    case SaveGame =>
    case SaveGameResponse(_) =>
    case ComputerPlay =>
    case ComputerPlayResponse(choice) =>
      if choice.Some? {
        next := PlayTurn(next, choice.value);
      } else {
        var gameEnd := true;
        if state.turn.Some? {
          var opponentMoves := ValidMoves(state.turn.value.Flipped(), state.board);
          var ownMoves := ValidMoves(state.turn.value, state.board);
          gameEnd := opponentMoves == [] && ownMoves == [];
        }
        if gameEnd {
          next := next.(turn := None);
        } else {
          next := next.(shouldSkip := true);
        }
      }
      sent := Some(SaveGame);
    case TurnSkipped =>
      next := next.(shouldSkip := false);
      next := next.(turn := GameCore.FlipTurn(next.turn));
      sent := if next.turn.Some? && next.players[next.turn.value.Index()] == Computer
              then Some(ComputerPlay) else Some(SaveGame);
  }
}
