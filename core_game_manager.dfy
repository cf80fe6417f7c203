/**
 * `GameManager` of Reversi/Core/GameManager.swift: one object holding the
 * game state (active side, players, board). Turn changes, moves, player
 * type changes and resets update that state in place; each returns the
 * `NextAction` it reports to its delegate. Saving is not modelled.
 */
module CoreGameManager {
  import opened Wrappers
  import opened DiskColors
  import opened Boards
  import opened ReversiSpecification
  import opened GamePlayers

  /** The players array: one player per colour, indexed by `Disk.Index()`. */
  type PlayerPair = s: seq<GamePlayer> | |s| == 2 witness [GamePlayer(Manual, Dark), GamePlayer(Manual, Light)]

  datatype GameState = GameState(activePlayerSide: Disk, players: PlayerPair, board: Disks)

  /** What the manager reports to its delegate. */
  datatype NextAction =
    | Start(state: GameState)
    | Set(disk: Disk, position: Position, board: Disks)
    | Next(player: GamePlayer, board: Disks)
    | Pass
    | Finish(winner: Option<GamePlayer>)
    | Reset(state: GameState)

  /** The error `placeDisk` throws for a cell the active side cannot play. */
  datatype DiskPlacementError = DiskPlacementError(disk: Disk, x: int, y: int, on: Disks)

  /** The players are in `Disk.sides` order: index 0 plays dark, index 1 light. */
  predicate PlayersInSideOrder(players: PlayerPair)
  {
    players[0].side == Dark && players[1].side == Light
  }

  /** `judgeWinner`: the player of the colour with more disks, none on a tie. */
  function Winner(board: Disks, dark: GamePlayer, light: GamePlayer): (r: Option<GamePlayer>)
    ensures r.None? <==> CountDisks(board, Dark) == CountDisks(board, Light)
    ensures r.Some? ==> r.value == if CountDisks(board, Dark) > CountDisks(board, Light) then dark else light
  {
    match SideWithMoreDisks(board)
    case None => None
    case Some(Dark) => Some(dark)
    case Some(Light) => Some(light)
  }

  /**
   * The report of `nextTurn` on a state whose active side has already been
   * flipped: the active player moves if it can, passes if only the other
   * player can, and otherwise the game is over.
   */
  function Outcome(s: GameState, dark: GamePlayer, light: GamePlayer): NextAction
  {
    var active := s.players[s.activePlayerSide.Index()];
    var inactive := s.players[s.activePlayerSide.Flipped().Index()];
    if MovesOf(s.board, active.side) != [] then Next(active, s.board)
    else if MovesOf(s.board, inactive.side) != [] then Pass
    else Finish(Winner(s.board, dark, light))
  }

  /** The three outcomes, each with the condition that selects it. */
  lemma OutcomeCases(s: GameState, dark: GamePlayer, light: GamePlayer)
    requires PlayersInSideOrder(s.players)
    ensures var side := s.activePlayerSide;
      && (Outcome(s, dark, light).Next? <==> MovesOf(s.board, side) != [])
      && (Outcome(s, dark, light).Next? ==> Outcome(s, dark, light).player.side == side)
      && (Outcome(s, dark, light).Pass? <==> MovesOf(s.board, side) == [] && MovesOf(s.board, side.Flipped()) != [])
      && (Outcome(s, dark, light).Finish? <==> MovesOf(s.board, side) == [] && MovesOf(s.board, side.Flipped()) == [])
  {
    var side := s.activePlayerSide;
    assert s.players[side.Index()].side == side;
    assert s.players[side.Flipped().Index()].side == side.Flipped();
  }

  /**
   * A pass never ends a game: on the same board, flipping the side again
   * gives the other player a move.
   */
  lemma PassIsFollowedByMove(s: GameState, dark: GamePlayer, light: GamePlayer)
    requires PlayersInSideOrder(s.players)
    requires Outcome(s, dark, light).Pass?
    ensures Outcome(s.(activePlayerSide := s.activePlayerSide.Flipped()), dark, light).Next?
  {
    OutcomeCases(s, dark, light);
    var t := s.(activePlayerSide := s.activePlayerSide.Flipped());
    OutcomeCases(t, dark, light);
    FlippedIsInvolution(s.activePlayerSide);
  }

  /**
   * The cells a legal `placeDisk` writes: the tapped cell, when it is on the
   * board, and every flipped cell take the active colour; no other cell changes.
   */
  lemma {:induction false} PlacedCells(board: Disks, side: Disk, p: Position, x: int, y: int)
    ensures var after := WithDisks(board, side, [p] + Flips(board, side, p.x, p.y));
      DiskAt(after, x, y) ==
        if IsInRange(x, y) && (Position(x, y) == p || Position(x, y) in Flips(board, side, p.x, p.y))
        then Some(side) else DiskAt(board, x, y)
  {
    WithDisksCells(board, side, [p] + Flips(board, side, p.x, p.y), x, y);
  }

  class GameManager {
    const darkPlayer: GamePlayer := GamePlayer(Manual, Dark)
    const lightPlayer: GamePlayer := GamePlayer(Manual, Light)
    var state: GameState

    /**
     * The players stay in side order and the board keeps its keys in range:
     * a new game and a loaded game start so, and every method keeps it.
     */
    ghost predicate Valid()
      reads this
    {
      PlayersInSideOrder(state.players) && WellFormed(state.board)
    }

    /** `newGame`: the reset board, dark active, both players manual. */
    function NewGame(): (s: GameState)
      ensures s.activePlayerSide == Dark && s.board == InitialDisks()
      ensures s.players == [GamePlayer(Manual, Dark), GamePlayer(Manual, Light)]
      ensures PlayersInSideOrder(s.players)
    {
      GameState(darkPlayer.side, [darkPlayer, lightPlayer], InitialDisks())
    }

    /** The load in `init`: the stored state, or a new game when loading fails. */
    constructor(loaded: Option<GameState>)
      requires loaded.Some? ==> PlayersInSideOrder(loaded.value.players) && WellFormed(loaded.value.board)
      ensures Valid()
      ensures state == if loaded.Some? then loaded.value else NewGame()
    {
      new;
      state := if loaded.Some? then loaded.value else NewGame();
      InitialLayout();
    }

    function ActivePlayer(): GamePlayer
      reads this
    {
      state.players[state.activePlayerSide.Index()]
    }

    /** `requestStartGame`: reports the current state. */
    method RequestStartGame() returns (action: NextAction)
      requires Valid()
      ensures action == Start(state)
    {
      action := Start(state);
    }

    /** `nextTurn`: flips the active side first, then decides. */
    method NextTurn() returns (action: NextAction)
      requires Valid()
      modifies this
      ensures Valid()
      ensures state == old(state).(activePlayerSide := old(state).activePlayerSide.Flipped())
      ensures action == Outcome(state, darkPlayer, lightPlayer)
      ensures action.Next? ==> action.player == ActivePlayer() && action.player.side == state.activePlayerSide
    {
      state := state.(activePlayerSide := state.activePlayerSide.Flipped());
      var active := ActivePlayer();
      var inactive := state.players[state.activePlayerSide.Flipped().Index()];
      var activeMoves := ValidMoves(active.side, state.board);
      if activeMoves != [] {
        action := Next(active, state.board);
        OutcomeCases(state, darkPlayer, lightPlayer);
        return;
      }
      var inactiveMoves := ValidMoves(inactive.side, state.board);
      if inactiveMoves != [] {
        action := Pass;
      } else {
        var side := SideWithMoreDisks(state.board);
        action := Finish(if side == Some(Dark) then Some(darkPlayer)
                         else if side == Some(Light) then Some(lightPlayer) else None);
      }
    }

    /**
     * `placeDisk`: on a cell the active side cannot play, the error and no
     * change; otherwise the tapped cell and the flipped cells take the
     * active colour and the active side stays.
     */
    method PlaceDisk(position: Position) returns (r: Result<NextAction, DiskPlacementError>)
      requires Valid()
      modifies this
      ensures Valid()
      ensures var side := old(state).activePlayerSide;
        !Placeable(old(state).board, side, position.x, position.y) ==>
          state == old(state) && r == Err(DiskPlacementError(side, position.x, position.y, state.board))
      ensures var side := old(state).activePlayerSide;
        Placeable(old(state).board, side, position.x, position.y) ==>
          state == old(state).(board := WithDisks(old(state).board, side,
                                                   [position] + Flips(old(state).board, side, position.x, position.y))) &&
          r == Ok(Set(side, position, state.board))
    {
      var side := state.activePlayerSide;
      var placeable := CanPlaceDisk(side, position.x, position.y, state.board);
      if !placeable {
        r := Err(DiskPlacementError(side, position.x, position.y, state.board));
        return;
      }
      var positions := FlippedDiskCoordinatesByPlacingDisk(side, position.x, position.y, state.board);
      var board := SetDisks(state.board, side, [position] + positions);
      WithDisksWellFormed(state.board, side, [position] + positions);
      state := state.(board := board);
      r := Ok(Set(side, position, state.board));
    }

    /** `changePlayerType`: only that colour's player type changes. */
    method ChangePlayerType(t: PlayerType, side: Disk) returns (action: NextAction)
      requires Valid()
      modifies this
      ensures Valid()
      ensures state.activePlayerSide == old(state).activePlayerSide && state.board == old(state).board
      ensures state.players[side.Index()] == old(state).players[side.Index()].(playerType := t)
      ensures state.players[side.Flipped().Index()] == old(state).players[side.Flipped().Index()]
      ensures action == Next(ActivePlayer(), state.board)
    {
      state := state.(players := state.players[side.Index() := state.players[side.Index()].SetType(t)]);
      action := Next(ActivePlayer(), state.board);
    }

    /** `requestResetGame`: back to the new-game state. */
    method RequestResetGame() returns (action: NextAction)
      requires Valid()
      modifies this
      ensures Valid()
      ensures state == NewGame() && action == Reset(NewGame())
    {
      state := NewGame();
      action := Reset(state);
      InitialLayout();
    }
  }
}
