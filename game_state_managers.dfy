/**
 * The stores of the reducer generation: `GameStateManager.live` of
 * Reversi/GameStateManager.swift and `FileGameStateManager` of
 * Reversi/FileGameStateManager.swift, which write and read the same text
 * (the turn digit is left out when there is no turn), and the in-memory
 * `mock` store of Reversi/GameStateManager.swift.
 */
module GameStateManagers {
  import opened Wrappers
  import opened DiskColors
  import opened Boards
  import opened GamePlayers
  import opened SaveFormat
  import GameCore

  /** The text `saveGame` writes for a state. */
  function SavedText(state: GameCore.GameState): string
  {
    Encoding(state.turn, state.players, state.board)
  }

  /**
   * What `loadGame` yields for a text: the decoded board, players and turn,
   * with `shouldSkip` false and no tap or computer move recorded.
   */
  function Loaded(input: string): (r: Result<GameCore.GameState, LoadError>)
    ensures r.Ok? ==>
      && r.value.turn.Some? && !r.value.shouldSkip
      && r.value.currentTapPosition.None? && r.value.playingAsComputer.None?
      && WellFormed(r.value.board)
    ensures r.Err? <==> Decoding(input).Err?
  {
    match Decoding(input)
    case Err(e) => Err(e)
    case Ok(s) => Ok(GameCore.GameState(s.board, s.types, Some(s.turn), false, None, None))
  }

  /**
   * Save then load restores the board, players and turn of a state that has
   * a turn; what is not saved comes back at its default.
   */
  lemma StateRoundTrip(state: GameCore.GameState)
    requires state.turn.Some? && WellFormed(state.board)
    ensures Loaded(SavedText(state)) ==
      Ok(state.(shouldSkip := false, currentTapPosition := None, playingAsComputer := None))
  {
    RoundTrip(state.turn.value, state.players, state.board);
  }

  /** A finished game (no turn) is saved in a form that does not load. */
  lemma FinishedGameDoesNotRoundTrip(state: GameCore.GameState)
    requires state.turn.None?
    ensures Loaded(SavedText(state)) == Err(Unreadable)
  {
    NoTurnDoesNotRoundTrip(state.players, state.board);
  }

  /** `saveGame` without the file write. */
  method SaveGame(state: GameCore.GameState) returns (output: string)
    ensures output == SavedText(state)
  {
    output := Encode(state.turn, state.players, state.board);
  }

  /** `loadGame` without the file read. */
  method LoadGame(input: string) returns (r: Result<GameCore.GameState, LoadError>)
    ensures r == Loaded(input)
  {
    var decoded := Decode(input);
    match decoded
    case Err(e) =>
      r := Err(e);
    case Ok(s) =>
      r := Ok(GameCore.GameState(s.board, s.types, Some(s.turn), false, None, None));
  }

  /** The `mock` store: saved states by id; a load hands a state out once. */
  class MockGameStateManager {
    var savedState: map<string, GameCore.GameState>

    constructor()
      ensures savedState == map[]
    {
      savedState := map[];
    }

    method SaveGame(id: string, state: GameCore.GameState)
      modifies this
      ensures savedState == old(savedState)[id := state]
    {
      savedState := savedState[id := state];
    }

    /** Fails when nothing is saved under `id`; otherwise returns it and forgets it. */
    method LoadGame(id: string) returns (r: Option<GameCore.GameState>)
      modifies this
      ensures id !in old(savedState) ==> r == None && savedState == old(savedState)
      ensures id in old(savedState) ==> r == Some(old(savedState)[id]) && savedState == old(savedState) - {id}
    {
      if id !in savedState {
        return None;
      }
      r := Some(savedState[id]);
      savedState := savedState - {id};
    }
  }

  /** The mock returns the last saved state on the first load only. */
  method MockLoadsOnce(id: string, first: GameCore.GameState, last: GameCore.GameState)
      returns (loaded: Option<GameCore.GameState>, again: Option<GameCore.GameState>)
    ensures loaded == Some(last) && again == None
  {
    var store := new MockGameStateManager();
    store.SaveGame(id, first);
    store.SaveGame(id, last);
    loaded := store.LoadGame(id);
    again := store.LoadGame(id);
  }
}
