/**
 * The earliest `GameManager`, of Reversi/GameManager.swift: the two players
 * of the game, the active player (none once the game is over), the pending
 * computer turns with their cancellers, and a `Board` object, all updated
 * in place. The calls to its delegates are returned as `GameEvent` values;
 * the two-second timer and the random move of a computer player are not
 * modelled.
 */
module ReversiGameManager {
  import opened Wrappers
  import opened DiskColors
  import opened Boards
  import opened ReversiSpecification
  import opened GamePlayers
  import opened Cancellers
  import CoreGameManager

  /** What a finished turn reports to the delegate. */
  datatype GameEvent =
    | ChangedTurn(player: GamePlayer)
    | PassedTurn(player: GamePlayer)
    | FinishedGame(winner: Option<GamePlayer>)

  /** The stored game handed over by a successful load. */
  datatype LoadedGame = LoadedGame(activePlayerDisk: Disk, players: seq<GamePlayer>, board: Board)

  /**
   * The player `setLoadedGame` keeps for `side`: the last player of that
   * side in `players`, or `current` when there is none.
   */
  function LastOfSide(players: seq<GamePlayer>, side: Disk, current: GamePlayer): (r: GamePlayer)
    ensures (forall i | 0 <= i < |players| :: players[i].side != side) ==> r == current
    ensures (exists i | 0 <= i < |players| :: players[i].side == side) ==>
      exists j | 0 <= j < |players| ::
        && r == players[j] && players[j].side == side
        && forall k | j < k < |players| :: players[k].side != side
  {
    if players == [] then current
    else if players[|players| - 1].side == side then players[|players| - 1]
    else LastOfSide(players[..|players| - 1], side, current)
  }

  /** Extending the players by one: that player is kept if it has the side. */
  lemma LastOfSideExtend(players: seq<GamePlayer>, i: nat, side: Disk, current: GamePlayer)
    requires i < |players|
    ensures LastOfSide(players[..i + 1], side, current) ==
      if players[i].side == side then players[i] else LastOfSide(players[..i], side, current)
  {
    assert players[..i + 1][..i] == players[..i];
  }

  /**
   * `turnPlayer`: the dark player hands over to the light player, and every
   * other player, compared by value, to the dark player.
   */
  function Swapped(active: GamePlayer, dark: GamePlayer, light: GamePlayer): GamePlayer
  {
    if active == dark then light else dark
  }

  /**
   * With players of different sides the swap alternates; but once the dark
   * player's type has been changed through the active player only, the
   * changed player no longer equals the dark player and the swap hands the
   * turn back to dark.
   */
  lemma SwapAfterTypeChange(dark: GamePlayer, light: GamePlayer, t: PlayerType)
    requires dark.side == Dark && light.side == Light
    ensures Swapped(dark, dark, light) == light && Swapped(light, dark, light) == dark
    ensures t != dark.playerType ==> Swapped(dark.SetType(t), dark, light) == dark
  {
  }

  class GameManager {
    var darkPlayer: GamePlayer
    var lightPlayer: GamePlayer
    var activePlayer: Option<GamePlayer>
    var playerCancellers: map<GamePlayer, Canceller>
    var board: Board

    ghost predicate Valid()
      reads this, board
    {
      board.Valid()
    }

    /**
     * `init`: the loaded game, or a new game when loading fails; no computer
     * turn is pending.
     */
    constructor(loaded: Option<LoadedGame>)
      requires loaded.Some? ==> loaded.value.board.Valid()
      ensures Valid() && playerCancellers == map[]
      ensures loaded.None? ==>
        && darkPlayer == GamePlayer(Manual, Dark) && lightPlayer == GamePlayer(Manual, Light)
        && activePlayer == Some(darkPlayer) && board.disks == InitialDisks()
      ensures loaded.Some? ==>
        && board == loaded.value.board && board.disks == old(loaded.value.board.disks)
        && darkPlayer == LastOfSide(loaded.value.players, Dark, GamePlayer(Manual, Dark))
        && lightPlayer == LastOfSide(loaded.value.players, Light, GamePlayer(Manual, Light))
        && activePlayer == Some(if loaded.value.activePlayerDisk == Dark then darkPlayer else lightPlayer)
    {
      darkPlayer := GamePlayer(Manual, Dark);
      lightPlayer := GamePlayer(Manual, Light);
      activePlayer := None;
      playerCancellers := map[];
      board := new Board();
      new;
      if loaded.Some? {
        SetLoadedGame(loaded.value);
      } else {
        NewGame();
      }
    }

    /** `newGame`: the board is reset and the dark player moves. */
    method NewGame()
      requires Valid()
      modifies this, board
      ensures Valid() && board == old(board) && board.disks == InitialDisks()
      ensures activePlayer == Some(darkPlayer)
      ensures darkPlayer == old(darkPlayer) && lightPlayer == old(lightPlayer)
      ensures playerCancellers == old(playerCancellers)
    {
      board.Reset();
      activePlayer := Some(darkPlayer);
    }

    /** `waitForPlayer`: a computer player to move gets a new pending turn. */
    method WaitForPlayer()
      modifies this
      ensures darkPlayer == old(darkPlayer) && lightPlayer == old(lightPlayer)
      ensures activePlayer == old(activePlayer) && board == old(board)
      ensures activePlayer.None? || activePlayer.value.playerType == Manual ==>
        playerCancellers == old(playerCancellers)
      ensures activePlayer.Some? && activePlayer.value.playerType == Computer ==>
        var p := activePlayer.value;
        && p in playerCancellers && fresh(playerCancellers[p]) && !playerCancellers[p].isCancelled
        && playerCancellers == old(playerCancellers)[p := playerCancellers[p]]
    {
      if activePlayer.None? {
        return;
      }
      var player := activePlayer.value;
      if player.playerType == Computer {
        var canceller := new Canceller(true);
        playerCancellers := playerCancellers[player := canceller];
      }
    }

    /**
     * `setLoadedGame`: takes the loaded board object, keeps for each colour
     * the last loaded player of that colour, and activates the player of
     * the loaded active colour.
     */
    method SetLoadedGame(loaded: LoadedGame)
      requires loaded.board.Valid()
      modifies this
      ensures Valid() && board == loaded.board
      ensures darkPlayer == LastOfSide(loaded.players, Dark, old(darkPlayer))
      ensures lightPlayer == LastOfSide(loaded.players, Light, old(lightPlayer))
      ensures activePlayer == Some(if loaded.activePlayerDisk == Dark then darkPlayer else lightPlayer)
      ensures playerCancellers == old(playerCancellers)
    {
      board := loaded.board;
      var players := loaded.players;
      for i := 0 to |players|
        invariant board == loaded.board && playerCancellers == old(playerCancellers)
        invariant darkPlayer == LastOfSide(players[..i], Dark, old(darkPlayer))
        invariant lightPlayer == LastOfSide(players[..i], Light, old(lightPlayer))
      {
        LastOfSideExtend(players, i, Dark, old(darkPlayer));
        LastOfSideExtend(players, i, Light, old(lightPlayer));
        match players[i].side
        case Dark => darkPlayer := players[i];
        case Light => lightPlayer := players[i];
      }
      assert players[..|players|] == players;
      activePlayer := Some(if loaded.activePlayerDisk == Dark then darkPlayer else lightPlayer);
    }

    /** `turnPlayer`, which the source only calls while a player is active. */
    method TurnPlayer()
      requires activePlayer.Some?
      modifies this
      ensures activePlayer == Some(Swapped(old(activePlayer).value, darkPlayer, lightPlayer))
      ensures darkPlayer == old(darkPlayer) && lightPlayer == old(lightPlayer)
      ensures playerCancellers == old(playerCancellers) && board == old(board)
    {
      if activePlayer.value == darkPlayer {
        activePlayer := Some(lightPlayer);
      } else {
        activePlayer := Some(darkPlayer);
      }
    }

    /**
     * `nextTurn`. The moves of the CURRENT player decide: if it can move the
     * turn changes, else if its opponent can move it passes, else the game
     * is over and the player of the colour with more disks wins.
     */
    method NextTurn() returns (event: Option<GameEvent>)
      requires Valid()
      modifies this
      ensures Valid() && board == old(board)
      ensures darkPlayer == old(darkPlayer) && lightPlayer == old(lightPlayer)
      ensures old(activePlayer).None? ==>
        event == None && activePlayer == None && playerCancellers == old(playerCancellers)
      ensures old(activePlayer).Some? && MovesOf(board.disks, old(activePlayer).value.side) != [] ==>
        var p := old(activePlayer).value;
        var q := Swapped(p, darkPlayer, lightPlayer);
        && event == Some(ChangedTurn(p)) && activePlayer == Some(q)
        && (q.playerType == Manual ==> playerCancellers == old(playerCancellers))
        && (q.playerType == Computer ==>
              q in playerCancellers && fresh(playerCancellers[q]) &&
              playerCancellers == old(playerCancellers)[q := playerCancellers[q]])
      ensures old(activePlayer).Some? && MovesOf(board.disks, old(activePlayer).value.side) == [] &&
              MovesOf(board.disks, old(activePlayer).value.side.Flipped()) != [] ==>
        var p := old(activePlayer).value;
        && event == Some(PassedTurn(p)) && activePlayer == Some(Swapped(p, darkPlayer, lightPlayer))
        && playerCancellers == old(playerCancellers)
      ensures old(activePlayer).Some? && MovesOf(board.disks, old(activePlayer).value.side) == [] &&
              MovesOf(board.disks, old(activePlayer).value.side.Flipped()) == [] ==>
        && event == Some(FinishedGame(CoreGameManager.Winner(board.disks, darkPlayer, lightPlayer)))
        && activePlayer == None && playerCancellers == old(playerCancellers)
    {
      if activePlayer.None? {
        return None;
      }
      var player := activePlayer.value;
      var moves := ValidMoves(player.side, board.disks);
      if moves != [] {
        TurnPlayer();
        event := Some(ChangedTurn(player));
        WaitForPlayer();
        return;
      }
      var opponentMoves := ValidMoves(player.side.Flipped(), board.disks);
      if opponentMoves != [] {
        TurnPlayer();
        event := Some(PassedTurn(player));
        return;
      }
      activePlayer := None;
      var winner := JudgeWinner();
      event := Some(FinishedGame(winner));
    }

    /** `judgeWinner`. */
    method JudgeWinner() returns (winner: Option<GamePlayer>)
      requires Valid()
      ensures winner == CoreGameManager.Winner(board.disks, darkPlayer, lightPlayer)
    {
      var side := SideWithMoreDisks(board.disks);
      winner := if side == Some(Dark) then Some(darkPlayer)
                else if side == Some(Light) then Some(lightPlayer) else None;
    }

    /** `changedPlayerType`: rewrites the active player only, not darkPlayer or lightPlayer. */
    method ChangedPlayerType(t: PlayerType)
      modifies this
      ensures activePlayer == if old(activePlayer).Some? then Some(old(activePlayer).value.SetType(t)) else None
      ensures darkPlayer == old(darkPlayer) && lightPlayer == old(lightPlayer)
      ensures playerCancellers == old(playerCancellers) && board == old(board)
    {
      if activePlayer.None? {
        return;
      }
      activePlayer := Some(activePlayer.value.SetType(t));
    }

    /** `resettedGame`: every pending computer turn is cancelled and forgotten. */
    method ResettedGame()
      modifies this, playerCancellers.Values
      ensures playerCancellers == map[]
      ensures forall c | c in old(playerCancellers).Values :: c.isCancelled
      ensures darkPlayer == old(darkPlayer) && lightPlayer == old(lightPlayer)
      ensures activePlayer == old(activePlayer) && board == old(board)
    {
      ghost var cancellers := playerCancellers;
      while playerCancellers != map[]
        invariant forall p | p in playerCancellers :: p in cancellers && playerCancellers[p] == cancellers[p]
        invariant forall p | p in cancellers && p !in playerCancellers :: cancellers[p].isCancelled
        invariant darkPlayer == old(darkPlayer) && lightPlayer == old(lightPlayer)
        invariant activePlayer == old(activePlayer) && board == old(board)
        decreases |playerCancellers|
      {
        var p :| p in playerCancellers;
        var canceller := playerCancellers[p];
        assert canceller in cancellers.Values;
        canceller.Cancel();
        playerCancellers := playerCancellers - {p};
      }
      forall c | c in cancellers.Values
        ensures c.isCancelled
      {
        var p :| p in cancellers && cancellers[p] == c;
      }
    }
  }
}
