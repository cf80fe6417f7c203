/**
 * The stores of the `GameManager` generation that uses
 * Reversi/Core/GameManager.swift: the file store of
 * ReversiStore/FileGameStateStore.swift and the in-memory store of
 * ReversiCoreTests/Helpers/InMemoryGameStore.swift. Both write and read the
 * same text; the string field `savedData` stands for the in-memory string
 * and, with reading and writing the file left out, for the file's contents.
 */
module GameStateStores {
  import opened Wrappers
  import opened DiskColors
  import opened Boards
  import opened GamePlayers
  import opened SaveFormat
  import CoreGameManager

  /** The type of each player, in order. */
  function TypesOf(players: seq<GamePlayer>): (types: seq<PlayerType>)
    ensures |types| == |players|
    ensures forall i | 0 <= i < |players| :: types[i] == players[i].playerType
  {
    seq(|players|, i requires 0 <= i < |players| => players[i].playerType)
  }

  /** The text `saveGame(turn:players:board:)` writes. */
  function StoredText(turn: Disk, players: seq<GamePlayer>, board: Disks): string
  {
    Encoding(Some(turn), TypesOf(players), board)
  }

  /**
   * What `loadGame` yields for a text: the decoded state, its players built
   * in `Disk.sides` order from the decoded types.
   */
  function Loaded(input: string): (r: Result<CoreGameManager.GameState, LoadError>)
    ensures r.Ok? ==> CoreGameManager.PlayersInSideOrder(r.value.players) && WellFormed(r.value.board)
    ensures r.Err? <==> Decoding(input).Err?
  {
    match Decoding(input)
    case Err(e) => Err(e)
    case Ok(s) =>
      Ok(CoreGameManager.GameState(s.turn, [GamePlayer(s.types[0], Dark), GamePlayer(s.types[1], Light)], s.board))
  }

  /** Save then load gives back the same active side, players and board. */
  lemma StoreRoundTrip(turn: Disk, players: CoreGameManager.PlayerPair, board: Disks)
    requires CoreGameManager.PlayersInSideOrder(players) && WellFormed(board)
    ensures Loaded(StoredText(turn, players, board)) == Ok(CoreGameManager.GameState(turn, players, board))
  {
    RoundTrip(turn, TypesOf(players), board);
    assert players == [GamePlayer(players[0].playerType, Dark), GamePlayer(players[1].playerType, Light)];
  }

  /** A cleared store holds no game. */
  lemma ClearedStoreFails()
    ensures Loaded("") == Err(Unreadable)
  {
    EmptyInputFails();
  }

  class GameStateStore {
    var savedData: string

    constructor()
      ensures savedData == ""
    {
      savedData := "";
    }

    /** `saveGame`: replaces the saved text. */
    method SaveGame(turn: Disk, players: seq<GamePlayer>, board: Disks)
      modifies this
      ensures savedData == StoredText(turn, players, board)
    {
      savedData := Encode(Some(turn), TypesOf(players), board);
    }

    /** `loadGame`: decodes the saved text. */
    method LoadGame() returns (r: Result<CoreGameManager.GameState, LoadError>)
      ensures r == Loaded(savedData)
    {
      var decoded := Decode(savedData);
      match decoded
      case Err(e) =>
        r := Err(e);
      case Ok(s) =>
        r := Ok(CoreGameManager.GameState(s.turn, [GamePlayer(s.types[0], Dark), GamePlayer(s.types[1], Light)], s.board));
    }

    /** `clear`: forgets the saved text. */
    method Clear()
      modifies this
      ensures savedData == ""
    {
      savedData := "";
    }
  }

  /** A store that saved a game loads it back; once cleared, loading fails. */
  method SaveLoadClear(turn: Disk, players: CoreGameManager.PlayerPair, board: Disks)
      returns (loaded: Result<CoreGameManager.GameState, LoadError>, afterClear: Result<CoreGameManager.GameState, LoadError>)
    requires CoreGameManager.PlayersInSideOrder(players) && WellFormed(board)
    ensures loaded == Ok(CoreGameManager.GameState(turn, players, board))
    ensures afterClear == Err(Unreadable)
  {
    var store := new GameStateStore();
    store.SaveGame(turn, players, board);
    loaded := store.LoadGame();
    StoreRoundTrip(turn, players, board);
    store.Clear();
    afterClear := store.LoadGame();
    ClearedStoreFails();
  }
}
