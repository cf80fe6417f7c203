/**
 * The game reducer of Reversi/GameCore.swift (the Composable Architecture
 * generation). The reducer is a method from the current state and an action
 * to the next state and the action its effect sends straight back
 * (`Effect(value:)`, or the action mapped from a save whose result is
 * ignored). Effects whose outcome comes from the store or the computer player
 * send nothing here.
 *
 * The `Board` of this generation is shared by reference: copying a
 * `GameState` copies the reference, so the `setDisk` calls of
 * `stateAfterDiskPlaced` also write into the board of the reducer's current
 * state. The model keeps the board's contents as the value `Disks` and
 * writes that sharing out where it shows: `placeDisk` leaves the current
 * state holding the moved board, and `updateState` judges the end of the
 * game on it.
 */
module GameCore {
  import opened Wrappers
  import opened DiskColors
  import opened Boards
  import opened ReversiSpecification
  import opened GamePlayers
  import opened DiskPositions

  /** The players array: one entry per colour, indexed by `Disk.Index()`. */
  type Players = s: seq<PlayerType> | |s| == 2 witness [Manual, Manual]

  datatype GameState = GameState(
    board: Disks,
    players: Players,
    turn: Option<Disk>,
    shouldSkip: bool,
    currentTapPosition: Option<DiskPosition>,
    playingAsComputer: Option<Disk>)

  /** `GameState()`: an empty board, two manual players and no turn. */
  function DefaultState(): (s: GameState)
    ensures s.board == map[] && s.players == [Manual, Manual] && s.turn == None
    ensures !s.shouldSkip && s.currentTapPosition == None && s.playingAsComputer == None
  {
    GameState(map[], [Manual, Manual], None, false, None, None)
  }

  /** `intialState`: the reset board, two manual players, dark to move. */
  function InitialState(): (s: GameState)
    ensures s.board == InitialDisks() && s.players == [Manual, Manual] && s.turn == Some(Dark)
    ensures !s.shouldSkip && s.currentTapPosition == None && s.playingAsComputer == None
  {
    GameState(InitialDisks(), [Manual, Manual], Some(Dark), false, None, None)
  }

  /** Dark moves first from the starting position, and has four legal moves there. */
  lemma InitialStateIsPlayable()
    ensures WellFormed(InitialState().board)
    ensures Placeable(InitialState().board, Dark, 2, 3) && Placeable(InitialState().board, Dark, 3, 2)
    ensures Placeable(InitialState().board, Dark, 4, 5) && Placeable(InitialState().board, Dark, 5, 4)
  {
    InitialLayout();
  }

  /**
   * `isGameEnd`, evaluated on the reducer's current `state` (not on the state
   * an `updateState` action carries): no turn, or neither colour can move.
   */
  predicate IsGameEnd(state: GameState)
  {
    match state.turn
    case None => true
    case Some(turn) => MovesOf(state.board, turn.Flipped()) == [] && MovesOf(state.board, turn) == []
  }

  /** With a turn set, only the board decides whether the game has ended. */
  lemma GameEndIsAboutTheBoard(state: GameState)
    requires state.turn.Some?
    ensures IsGameEnd(state) <==> MovesOf(state.board, Dark) == [] && MovesOf(state.board, Light) == []
    ensures IsGameEnd(state) <==> IsGameEnd(state.(turn := Some(state.turn.value.Flipped())))
  {
  }

  /** `stateAfterDiskPlaced`, as a value. */
  function AfterDiskPlaced(state: GameState, position: DiskPosition): GameState
  {
    match state.turn
    case None => state
    case Some(turn) =>
      var flips := Flips(state.board, turn, position.x, position.y);
      if flips == [] then state
      else
        state.(
          currentTapPosition := Some(position),
          board := WithDisks(WithDisk(state.board, turn, position.x, position.y), turn, flips),
          turn := Some(turn.Flipped()))
  }

  /**
   * A legal move puts the mover's colour on the tapped cell and on every
   * flipped cell, records the tap, passes the turn to the other colour and
   * changes nothing else; it adds exactly one disk to a well-formed board.
   * Without a turn, or when the move flips nothing, the state is unchanged.
   */
  lemma {:induction false} AfterDiskPlacedEffect(state: GameState, position: DiskPosition)
    ensures state.turn.None? || Flips(state.board, state.turn.value, position.x, position.y) == [] ==>
      AfterDiskPlaced(state, position) == state
    ensures state.turn.Some? && Flips(state.board, state.turn.value, position.x, position.y) != [] ==>
      var turn := state.turn.value;
      var flips := Flips(state.board, turn, position.x, position.y);
      var after := AfterDiskPlaced(state, position);
      && after.turn == Some(turn.Flipped())
      && after.currentTapPosition == Some(position)
      && after.players == state.players
      && after.shouldSkip == state.shouldSkip
      && after.playingAsComputer == state.playingAsComputer
      && (forall x, y :: DiskAt(after.board, x, y) ==
            if IsInRange(x, y) && (Position(x, y) == Position(position.x, position.y) || Position(x, y) in flips)
            then Some(turn) else DiskAt(state.board, x, y))
      && (WellFormed(state.board) && IsInRange(position.x, position.y) ==>
            WellFormed(after.board) && |after.board| == |state.board| + 1)
  {
    if state.turn.Some? && Flips(state.board, state.turn.value, position.x, position.y) != [] {
      var turn := state.turn.value;
      var flips := Flips(state.board, turn, position.x, position.y);
      var placed := WithDisk(state.board, turn, position.x, position.y);
      var after := AfterDiskPlaced(state, position);
      WithDiskCells(state.board, turn, position.x, position.y);
      forall x, y
        ensures DiskAt(after.board, x, y) ==
          if IsInRange(x, y) && (Position(x, y) == Position(position.x, position.y) || Position(x, y) in flips)
          then Some(turn) else DiskAt(state.board, x, y)
      {
        WithDisksCells(placed, turn, flips, x, y);
      }
      if WellFormed(state.board) && IsInRange(position.x, position.y) {
        FlipsSound(state.board, turn, position.x, position.y);
        WithDisksWellFormed(placed, turn, flips);
        assert Position(position.x, position.y) !in state.board;
        forall i | 0 <= i < |flips|
          ensures flips[i] in placed
        {
          assert flips[i] in flips;
        }
        WithDisksSameKeys(placed, turn, flips);
        assert |after.board| == |placed|;
      }
    }
  }

  /** `stateAfterDiskPlaced`: place, then one `setDisk` per flipped cell. */
  method StateAfterDiskPlaced(state: GameState, position: DiskPosition) returns (newState: GameState)
    ensures newState == AfterDiskPlaced(state, position)
  {
    newState := state;
    if newState.turn.None? {
      return;
    }
    var turn := newState.turn.value;
    var diskCoordinates := FlippedDiskCoordinatesByPlacingDisk(turn, position.x, position.y, newState.board);
    if diskCoordinates == [] {
      return;
    }
    newState := newState.(currentTapPosition := Some(position));
    newState := newState.(board := WithDisk(newState.board, turn, position.x, position.y));
    ghost var placed := newState.board;
    for i := 0 to |diskCoordinates|
      invariant newState == state.(currentTapPosition := Some(position), board := newState.board)
      invariant newState.board == WithDisks(placed, turn, diskCoordinates[..i])
    {
      assert diskCoordinates[..i + 1][..i] == diskCoordinates[..i];
      newState := newState.(board := WithDisk(newState.board, turn, diskCoordinates[i].x, diskCoordinates[i].y));
    }
    assert diskCoordinates[..|diskCoordinates|] == diskCoordinates;
    newState := newState.(turn := Some(turn.Flipped()));
  }

  /** `GameAction`. A load response carries the loaded state, or None on failure. */
  datatype GameAction =
    | GameStarted
    | ManualPlayerDiskPlaced(position: DiskPosition)
    | ResetTapped
    | PlayerChanged(disk: Disk, player: PlayerType)
    | LoadGameResponse(loaded: Option<GameState>)
    | SaveGame
    | SaveGameResponse(saved: bool)
    | ComputerPlay
    | ComputerPlayResponse(choice: Option<DiskPosition>)
    | TurnSkipped
    | PlaceDisk(position: DiskPosition)
    | UpdateState(received: GameState)
    | LogoutButtonTapped

  /** `turn?.flip()`. */
  function FlipTurn(turn: Option<Disk>): Option<Disk>
  {
    if turn.Some? then Some(turn.value.Flipped()) else None
  }

  /** `gameReducer`. */
  method GameReducer(state: GameState, action: GameAction) returns (next: GameState, sent: Option<GameAction>)
    // Actions whose work is loading, saving or asking the computer leave the state alone.
    ensures action.GameStarted? || action.SaveGame? || action.SaveGameResponse? || action.LogoutButtonTapped? ==>
      next == state && sent == None
    ensures action.ResetTapped? ==> next == state && sent == Some(GameStarted)
    // A tap is forwarded only when there is a turn and a manual player has it.
    ensures action.ManualPlayerDiskPlaced? ==>
      next == state &&
      sent == if state.turn.Some? && state.players[state.turn.value.Index()] == Manual
              then Some(PlaceDisk(action.position)) else None
    ensures action.PlayerChanged? ==>
      sent == Some(SaveGame) &&
      next == state.(
        players := state.players[action.disk.Index() := action.player],
        playingAsComputer :=
          if action.player == Manual && state.turn == Some(action.disk) then None else state.playingAsComputer)
    ensures action.LoadGameResponse? ==>
      sent == Some(SaveGame) &&
      next == if action.loaded.Some? then action.loaded.value else InitialState()
    ensures action.ComputerPlay? ==>
      sent == None && next == if state.turn.Some? then state.(playingAsComputer := state.turn) else state
    ensures action.ComputerPlayResponse? ==>
      next == state &&
      sent == if action.choice.Some? then Some(PlaceDisk(action.choice.value)) else Some(UpdateState(state))
    // The acknowledged pass: the other colour moves; a computer player is asked to play.
    ensures action.TurnSkipped? ==>
      next == state.(shouldSkip := false, turn := FlipTurn(state.turn)) &&
      sent == if next.turn.Some? && state.players[next.turn.value.Index()] == Computer
              then Some(ComputerPlay) else Some(SaveGame)
    // The move is handed on to updateState; its disks already sit on the shared board.
    ensures action.PlaceDisk? ==>
      next == state.(board := AfterDiskPlaced(state, action.position).board) &&
      sent == Some(UpdateState(AfterDiskPlaced(state, action.position)))
    ensures action.UpdateState? && action.received.turn.None? ==> next == state && sent == None
    ensures action.UpdateState? && action.received.turn.Some? ==>
      var received := action.received;
      sent == Some(SaveGame) &&
      next.board == received.board && next.players == received.players && next.playingAsComputer == None &&
      (IsGameEnd(state) ==>
        next.turn == None && next.currentTapPosition == None && next.shouldSkip == received.shouldSkip) &&
      (!IsGameEnd(state) ==>
        next.turn == received.turn && next.currentTapPosition == received.currentTapPosition &&
        next.shouldSkip == (received.shouldSkip || MovesOf(received.board, received.turn.value) == []))
  {
    next, sent := state, None;
    match action
    case GameStarted =>
    case ManualPlayerDiskPlaced(position) =>
      if state.turn.Some? && state.players[state.turn.value.Index()] == Manual {
        sent := Some(PlaceDisk(position));
      }
    case ResetTapped =>
      sent := Some(GameStarted);
    case PlayerChanged(disk, player) =>
      next := next.(players := next.players[disk.Index() := player]);
      if player == Manual && next.turn == Some(disk) {
        next := next.(playingAsComputer := None);
      }
      sent := Some(SaveGame);
    case LoadGameResponse(loaded) =>
      next := if loaded.Some? then loaded.value else InitialState();
      sent := Some(SaveGame);
    case SaveGame =>
    case SaveGameResponse(_) =>
    case ComputerPlay =>
      if state.turn.Some? {
        next := next.(playingAsComputer := state.turn);
      }
    case ComputerPlayResponse(choice) =>
      sent := if choice.Some? then Some(PlaceDisk(choice.value)) else Some(UpdateState(state));
    case TurnSkipped =>
      next := next.(shouldSkip := false);
      next := next.(turn := FlipTurn(next.turn));
      sent := if next.turn.Some? && next.players[next.turn.value.Index()] == Computer
              then Some(ComputerPlay) else Some(SaveGame);
    case PlaceDisk(position) =>
      var newState := StateAfterDiskPlaced(state, position);
      next := next.(board := newState.board);
      sent := Some(UpdateState(newState));
    case UpdateState(received) =>
      var newState := received;
      if newState.turn.None? {
        return;
      }
      var turn := newState.turn.value;
      if IsGameEnd(state) {
        newState := newState.(turn := None, currentTapPosition := None);
      } else {
        var moves := ValidMoves(turn, newState.board);
        if moves == [] {
          newState := newState.(shouldSkip := true);
        }
      }
      newState := newState.(playingAsComputer := None);
      next := newState;
      sent := Some(SaveGame);
    case LogoutButtonTapped =>
  }

  /**
   * A legal move onto the last empty cell fills the board, so the current
   * state, which shares the moved board, is a finished game.
   */
  lemma {:induction false} LastMoveEndsGame(state: GameState, position: DiskPosition)
    requires state.turn.Some? && Placeable(state.board, state.turn.value, position.x, position.y)
    requires forall x, y | IsInRange(x, y) && Position(x, y) != Position(position.x, position.y) ::
      DiskAt(state.board, x, y).Some?
    ensures AfterDiskPlaced(state, position).turn.Some?
    ensures IsGameEnd(state.(board := AfterDiskPlaced(state, position).board))
  {
    var after := AfterDiskPlaced(state, position);
    AfterDiskPlacedEffect(state, position);
    forall x, y | IsInRange(x, y)
      ensures DiskAt(after.board, x, y).Some?
    {
    }
    FullBoardHasNoMoves(after.board);
  }

  /**
   * The store's run of a manual tap: the reducer takes the tap, then each
   * action its effect sends back, up to the save. When the tap fills the last
   * empty cell, the game ends: no turn and no tap position remain, and the
   * moved board is kept.
   */
  method LastTapEndsGame(state: GameState, position: DiskPosition) returns (next: GameState, sent: Option<GameAction>)
    requires state.turn.Some? && state.players[state.turn.value.Index()] == Manual
    requires Placeable(state.board, state.turn.value, position.x, position.y)
    requires forall x, y | IsInRange(x, y) && Position(x, y) != Position(position.x, position.y) ::
      DiskAt(state.board, x, y).Some?
    ensures sent == Some(SaveGame)
    ensures next.turn == None && next.currentTapPosition == None
    ensures next.board == AfterDiskPlaced(state, position).board
    ensures next.players == state.players && next.shouldSkip == state.shouldSkip && next.playingAsComputer == None
  {
    var tapped, forwarded := GameReducer(state, ManualPlayerDiskPlaced(position));
    var moved, updated := GameReducer(tapped, forwarded.value);
    LastMoveEndsGame(state, position);
    next, sent := GameReducer(moved, updated.value);
  }

  /** All cells of the board, as positions. */
  function AllCells(): set<Position>
  {
    set x, y | 0 <= x < Width && 0 <= y < Height :: Position(x, y)
  }

  /** The board of the won-game test: all dark, except an empty (0, 0) and a light (7, 7). */
  function PassedBoard(): Disks
  {
    map p | p in AllCells() && p != Position(0, 0) :: if p == Position(Width - 1, Height - 1) then Light else Dark
  }

  /** The cells of the won-game board, as `diskAt` reads them. */
  ghost predicate HasPassedCells(d: Disks)
  {
    forall x, y :: DiskAt(d, x, y) ==
                   if IsInRange(x, y) && Position(x, y) != Position(0, 0)
                   then Some(if Position(x, y) == Position(7, 7) then Light else Dark)
                   else None
  }

  lemma PassedBoardCells()
    ensures WellFormed(PassedBoard()) && HasPassedCells(PassedBoard())
  {
    forall x, y | IsInRange(x, y)
      ensures Position(x, y) in AllCells()
    {
    }
  }

  /** From (0, 0), the five rays pointing off the board flip nothing. */
  lemma OffBoardRays(d: Disks)
    ensures Ray(d, Light, 0, 0, 0) == [] && Ray(d, Light, 0, 0, 1) == [] && Ray(d, Light, 0, 0, 2) == []
    ensures Ray(d, Light, 0, 0, 6) == [] && Ray(d, Light, 0, 0, 7) == []
  {
  }

  /** The dark cells east of (0, 0) and south of it. */
  const TopRow: seq<Position> :=
    [Position(1, 0), Position(2, 0), Position(3, 0), Position(4, 0), Position(5, 0), Position(6, 0), Position(7, 0)]
  const LeftColumn: seq<Position> :=
    [Position(0, 1), Position(0, 2), Position(0, 3), Position(0, 4), Position(0, 5), Position(0, 6), Position(0, 7)]

  /** Along the top row, the dark run leaves the board unclosed. */
  lemma TopRowRay(d: Disks)
    requires HasPassedCells(d)
    ensures Ray(d, Light, 0, 0, 3) == []
  {
    var run := TopRow;
    assert Walk(d, Light, 7, 0, 1, 0, run) == [];
    assert DiskAt(d, 7, 0) == Some(Dark);
    assert Walk(d, Light, 6, 0, 1, 0, run[..6]) == [];
    assert DiskAt(d, 6, 0) == Some(Dark);
    assert Walk(d, Light, 5, 0, 1, 0, run[..5]) == [];
    assert DiskAt(d, 5, 0) == Some(Dark);
    assert Walk(d, Light, 4, 0, 1, 0, run[..4]) == [];
    assert DiskAt(d, 4, 0) == Some(Dark);
    assert Walk(d, Light, 3, 0, 1, 0, run[..3]) == [];
    assert DiskAt(d, 3, 0) == Some(Dark);
    assert Walk(d, Light, 2, 0, 1, 0, run[..2]) == [];
    assert DiskAt(d, 2, 0) == Some(Dark);
    assert Walk(d, Light, 1, 0, 1, 0, run[..1]) == [];
    assert DiskAt(d, 1, 0) == Some(Dark);
    assert Walk(d, Light, 0, 0, 1, 0, []) == [];
  }

  /** Down the left column, the dark run leaves the board unclosed. */
  lemma LeftColumnRay(d: Disks)
    requires HasPassedCells(d)
    ensures Ray(d, Light, 0, 0, 5) == []
  {
    var run := LeftColumn;
    assert Walk(d, Light, 0, 7, 0, 1, run) == [];
    assert DiskAt(d, 0, 7) == Some(Dark);
    assert Walk(d, Light, 0, 6, 0, 1, run[..6]) == [];
    assert DiskAt(d, 0, 6) == Some(Dark);
    assert Walk(d, Light, 0, 5, 0, 1, run[..5]) == [];
    assert DiskAt(d, 0, 5) == Some(Dark);
    assert Walk(d, Light, 0, 4, 0, 1, run[..4]) == [];
    assert DiskAt(d, 0, 4) == Some(Dark);
    assert Walk(d, Light, 0, 3, 0, 1, run[..3]) == [];
    assert DiskAt(d, 0, 3) == Some(Dark);
    assert Walk(d, Light, 0, 2, 0, 1, run[..2]) == [];
    assert DiskAt(d, 0, 2) == Some(Dark);
    assert Walk(d, Light, 0, 1, 0, 1, run[..1]) == [];
    assert DiskAt(d, 0, 1) == Some(Dark);
    assert Walk(d, Light, 0, 0, 0, 1, []) == [];
  }

  /** The flips of light at (0, 0): the diagonal (1, 1) to (6, 6). */
  const DiagonalRun: seq<Position> :=
    [Position(1, 1), Position(2, 2), Position(3, 3), Position(4, 4), Position(5, 5), Position(6, 6)]

  /** Along the diagonal, the dark run (1, 1) to (6, 6) is closed by light at (7, 7). */
  lemma DiagonalRay(d: Disks)
    requires HasPassedCells(d)
    ensures Ray(d, Light, 0, 0, 4) == DiagonalRun
  {
    var run := DiagonalRun;
    assert DiskAt(d, 7, 7) == Some(Light);
    assert Walk(d, Light, 6, 6, 1, 1, run) == run;
    assert DiskAt(d, 6, 6) == Some(Dark);
    assert Walk(d, Light, 5, 5, 1, 1, run[..5]) == run;
    assert DiskAt(d, 5, 5) == Some(Dark);
    assert Walk(d, Light, 4, 4, 1, 1, run[..4]) == run;
    assert DiskAt(d, 4, 4) == Some(Dark);
    assert Walk(d, Light, 3, 3, 1, 1, run[..3]) == run;
    assert DiskAt(d, 3, 3) == Some(Dark);
    assert Walk(d, Light, 2, 2, 1, 1, run[..2]) == run;
    assert DiskAt(d, 2, 2) == Some(Dark);
    assert Walk(d, Light, 1, 1, 1, 1, run[..1]) == run;
    assert DiskAt(d, 1, 1) == Some(Dark);
    assert Walk(d, Light, 0, 0, 1, 1, []) == run;
  }

  /**
   * Light at (0, 0) on that board: every ray runs off the board or ends
   * unclosed, except the diagonal, which flips (1, 1) to (6, 6) up to the
   * light disk at (7, 7).
   */
  lemma PassedBoardLightCorner(d: Disks)
    requires HasPassedCells(d)
    ensures Flips(d, Light, 0, 0) == DiagonalRun
  {
    assert DiskAt(d, 0, 0) == None;
    OffBoardRays(d);
    TopRowRay(d);
    LeftColumnRay(d);
    DiagonalRay(d);
    assert FlipsUpTo(d, Light, 0, 0, 1) == [];
    assert FlipsUpTo(d, Light, 0, 0, 2) == [];
    assert FlipsUpTo(d, Light, 0, 0, 3) == [];
    assert FlipsUpTo(d, Light, 0, 0, 4) == [];
    assert FlipsUpTo(d, Light, 0, 0, 5) == DiagonalRun;
    assert FlipsUpTo(d, Light, 0, 0, 6) == DiagonalRun;
    assert FlipsUpTo(d, Light, 0, 0, 7) == DiagonalRun;
  }

  /** The state of the won-game test: the initial state on that board, light to move. */
  function PassedState(): GameState
  {
    InitialState().(board := PassedBoard(), turn := Some(Light))
  }

  /** A subset has no more elements than the set that holds it. */
  lemma {:induction false} SubsetCount(a: set<Position>, b: set<Position>)
    requires a <= b
    ensures |a| <= |b|
    decreases |a|
  {
    if a != {} {
      var p :| p in a;
      SubsetCount(a - {p}, b - {p});
    }
  }

  /**
   * A well-formed board whose light disks all lie on the diagonal, and whose
   * top row and first cells of the left column are dark, has more dark disks.
   */
  lemma {:induction false} DarkAheadOfDiagonal(d: Disks)
    requires WellFormed(d)
    requires forall x, y | DiskAt(d, x, y) == Some(Light) :: x == y
    requires forall x | 1 <= x < Width :: DiskAt(d, x, 0) == Some(Dark)
    requires DiskAt(d, 0, 1) == Some(Dark) && DiskAt(d, 0, 2) == Some(Dark)
    ensures SideWithMoreDisks(d) == Some(Dark)
  {
    var diagonal := {Position(0, 0), Position(1, 1), Position(2, 2), Position(3, 3),
                     Position(4, 4), Position(5, 5), Position(6, 6), Position(7, 7)};
    var edge := {Position(1, 0), Position(2, 0), Position(3, 0), Position(4, 0), Position(5, 0),
                 Position(6, 0), Position(7, 0), Position(0, 1), Position(0, 2)};
    var lights := set p | p in d && d[p] == Light;
    var darks := set p | p in d && d[p] == Dark;
    forall p | p in lights
      ensures p in diagonal
    {
      assert DiskAt(d, p.x, p.y) == Some(Light);
    }
    forall p | p in edge
      ensures p in darks
    {
      assert DiskAt(d, p.x, p.y) == Some(Dark);
    }
    SubsetCount(lights, diagonal);
    SubsetCount(edge, darks);
  }

  /** The cells after light's move at (0, 0) on a board with the won-game cells. */
  lemma {:induction false} WonMoveCells(state: GameState)
    requires WellFormed(state.board) && HasPassedCells(state.board) && state.turn == Some(Light)
    ensures var after := AfterDiskPlaced(state, DiskPosition(0, 0)).board;
      && WellFormed(after)
      && (forall x, y | DiskAt(after, x, y) == Some(Light) :: x == y)
      && (forall x | 1 <= x < Width :: DiskAt(after, x, 0) == Some(Dark))
      && DiskAt(after, 0, 1) == Some(Dark) && DiskAt(after, 0, 2) == Some(Dark)
  {
    PassedBoardLightCorner(state.board);
    var after := AfterDiskPlaced(state, DiskPosition(0, 0)).board;
    AfterDiskPlacedEffect(state, DiskPosition(0, 0));
    forall x, y | DiskAt(after, x, y) == Some(Light)
      ensures x == y
    {
      if Position(x, y) !in DiagonalRun && Position(x, y) != Position(0, 0) {
        assert DiskAt(state.board, x, y) == Some(Light);
      }
    }
    forall x | 1 <= x < Width
      ensures DiskAt(after, x, 0) == Some(Dark)
    {
      assert Position(x, 0) !in DiagonalRun;
    }
    assert Position(0, 1) !in DiagonalRun && Position(0, 2) !in DiagonalRun;
  }

  /**
   * Light's move at (0, 0) on a board with the won-game cells: dark moves
   * next, the tap is recorded, and dark ends with more disks, as at most the
   * eight diagonal cells are light.
   */
  lemma {:induction false} WonOn(state: GameState)
    requires WellFormed(state.board) && HasPassedCells(state.board) && state.turn == Some(Light)
    ensures Placeable(state.board, Light, 0, 0)
    ensures AfterDiskPlaced(state, DiskPosition(0, 0)).turn == Some(Dark)
    ensures AfterDiskPlaced(state, DiskPosition(0, 0)).currentTapPosition == Some(DiskPosition(0, 0))
    ensures SideWithMoreDisks(AfterDiskPlaced(state, DiskPosition(0, 0)).board) == Some(Dark)
  {
    PassedBoardLightCorner(state.board);
    WonMoveCells(state);
    DarkAheadOfDiagonal(AfterDiskPlaced(state, DiskPosition(0, 0)).board);
  }

  /**
   * The won-game test meets the conditions of `LastTapEndsGame` with a tap
   * at (0, 0): light's player is manual, the move is legal and (0, 0) is the
   * only empty cell. The moved state has dark to move and the tap recorded,
   * and dark has more disks on the final board.
   */
  lemma WonThenGameEnd()
    ensures PassedState().players[Light.Index()] == Manual && PassedState().turn == Some(Light)
    ensures Placeable(PassedState().board, Light, 0, 0)
    ensures forall x, y | IsInRange(x, y) && Position(x, y) != Position(0, 0) :: DiskAt(PassedState().board, x, y).Some?
    ensures AfterDiskPlaced(PassedState(), DiskPosition(0, 0)).turn == Some(Dark)
    ensures AfterDiskPlaced(PassedState(), DiskPosition(0, 0)).currentTapPosition == Some(DiskPosition(0, 0))
    ensures SideWithMoreDisks(AfterDiskPlaced(PassedState(), DiskPosition(0, 0)).board) == Some(Dark)
  {
    PassedBoardCells();
    WonOn(PassedState());
  }
}
