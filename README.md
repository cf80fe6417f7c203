# Reversi: rules, turn logic and save format

A Dafny model of the core of the `reversi-ios` app. The core has these parts.

- **The board and the rules.** An 8×8 board maps positions to disk colours (`Boards`, with the `Board` class of `Reversi/Board.swift`). The rules (`ReversiSpecification`) do three things:
  - find the disks a move flips, walking eight fixed directions;
  - decide whether a cell is playable;
  - list the legal moves in row-major order.

  Each loop of the source is a method. Each method is proved to compute a specification function (`Flips`, `Placeable`, `MovesOf`), and the lemmas about those functions state what the rules promise.
- **Four generations of turn logic.** Each is kept separate.
  - `GameCore` (`gameReducer`) is the later reducer. A move is computed in `placeDisk` and handed to `updateState`. `updateState` then decides between game over, pass and continue. It asks `isGameEnd` of the reducer's *current* state, not of the state it receives. Both colours are tested, so only that state's board matters (`GameCore.GameEndIsAboutTheBoard`). The `Board` of this generation is shared by reference, so the disks `placeDisk` writes also land on the current state's board. The model writes that out: after `placeDisk` the current state holds the moved board, and a move onto the last empty cell ends the game (`GameCore.LastTapEndsGame`).
  - `AppCore` (`appReducer`) is the earlier reducer. It decides game over and pass *before* the tapped move is played.
  - `CoreGameManager` is `Reversi/Core/GameManager.swift`. It flips the active side first and then reports next, pass or finish.
  - `ReversiGameManager` is `Reversi/GameManager.swift`. It tests the current colour's moves before swapping players by value equality.

  The reducers are methods from a state value and an action to the next state. They also return the action that the reducer's effect sends back whatever the I/O outcome. The two managers are classes whose methods update their fields in place.
- **The save format.** `SaveFormat` holds the encoder and decoder shared by the four store files. The header line is the turn digit and one digit per player. It is followed by eight rows of `x`/`o`/`-`. `GameStateStores` and `GameStateManagers` turn the decoded text into the two state types and model the in-memory stores.
- **Small state machines and value types.**
  - `Cancellers`: a one-shot cancel flag.
  - `LoginCore` and `ReversiLoginCore`: the two login reducers, with the login-button rule.
  - `AppRoot`: the root reducer, which shows either the login screen or the game screen.
  - `GamePlayers` and `DiskPositions`: value types.

## Model

| member | source | states |
|---|---|---|
| DiskColors.Disk.Index | Reversi/GameViewController.swift:353-358 | dark has index 0, light index 1 |
| DiskColors.DiskOfIndex | Reversi/GameViewController.swift:343-351 | `Disk(index:)` yields a disk exactly for indices 0 and 1, the disk with that index; any other index is an error value in place of the precondition failure |
| DiskColors.IndexRoundTrip | Reversi/GameViewController.swift:343-358 | `Disk(index: d.index) == d` |
| DiskColors.FlippedIsInvolution | Reversi/Core/GameManager.swift:94 | flipping a colour twice gives it back, and `flipped` never returns the same colour |
| Boards.DiskAtStored | Reversi/Board.swift:52-56 | on a well-formed board `diskAt` is the stored colour, nil for an empty cell and nil off the board |
| Boards.WithDiskCells | Reversi/Board.swift:37-45 | `setDisk` on an in-range cell stores the disk there and changes no other cell; off the board nothing changes; every key stays in range |
| Boards.Board.SetDisk | Reversi/Board.swift:37-45 | reports true exactly for in-range cells; the new contents are the old ones with that one cell set, if it is on the board; the in-range invariant is kept |
| Boards.Board.constructor | Reversi/Board.swift:17 | a new board is empty and well formed |
| Boards.Board.Reset | Reversi/Board.swift:20-28 | whatever the board held, it afterwards holds exactly the four starting disks, so resetting twice equals resetting once |
| Boards.InitialLayout | Reversi/Board.swift:20-28 | the starting board holds light (3,3), dark (4,3), dark (3,4), light (4,4) and nothing else; 2/2 disks, no side ahead |
| Boards.EmptyBoardCounts | Reversi/Board.swift:61-70 | a fresh board counts 0 dark and 0 light disks |
| Boards.SideWithMoreDisks | Reversi/Board.swift:75-83 | nil exactly when the counts are equal, otherwise the colour with the strictly larger count |
| Boards.WithDisksCells | Reversi/Core/GameManager.swift:146 | `setDisks` sets every listed in-range cell to the disk and leaves every other cell as it was |
| Boards.WithDisksWellFormed | Reversi/Board.swift:37-45 | writes through `setDisk` keep every key of the board in range |
| Boards.WithDisksSameKeys | Reversi/Core/GameManager.swift:146 | rewriting cells that already hold disks adds no disk |
| Boards.SetDisks | Reversi/Core/GameManager.swift:146 | the loop of `setDisk` calls yields the board `setDisks` specifies |
| ReversiSpecification.DirectionIsStep | Reversi/ReversiSpecification.swift:27-36 | each of the eight directions is a unit step |
| ReversiSpecification.FlippedDiskCoordinatesByPlacingDisk | Reversi/ReversiSpecification.swift:24-66 | the direction loop with its inner walk returns `Flips`: the concatenation of the eight rays in the order NW, N, NE, E, SE, S, W, SW, each outward from the cell, and nothing for an occupied cell |
| ReversiSpecification.RayOutcome | Reversi/ReversiSpecification.swift:44-63 | a direction contributes its run of opposite-colour disks exactly when the first cell after the run holds the mover's colour, and nothing when it is empty or off the board |
| ReversiSpecification.FlipsSound | Reversi/ReversiSpecification.swift:38-61 | every flipped coordinate is on the board and holds the opposite colour; an occupied cell flips nothing and is not playable |
| ReversiSpecification.CanPlaceDisk | Reversi/ReversiSpecification.swift:73-75 | true exactly when the flipped list is non-empty; false on an occupied cell |
| ReversiSpecification.MovesOfExact | Reversi/ReversiSpecification.swift:79-91 | the legal moves are exactly the in-range cells where a disk can be placed, each listed once, in strictly increasing row-major order |
| ReversiSpecification.ValidMoves | Reversi/ReversiSpecification.swift:79-91 | the nested y/x loops return exactly `MovesOf` |
| ReversiSpecification.FullBoardHasNoMoves | Reversi/ReversiSpecification.swift:73-91 | on a board whose every cell holds a disk, neither colour has a legal move |
| ReversiSpecification.CornerCentreMove | ReversiCoreTests/ReversiSpecificationTests.swift:18-56 | with light (0,0) and dark (1,0), (0,1), (1,1), light at (2,2) flips exactly (1,1) |
| ReversiSpecification.CornerTopEdgeMove | ReversiCoreTests/ReversiSpecificationTests.swift:18-56 | on that board light at (2,0) flips exactly (1,0) |
| ReversiSpecification.CornerLeftEdgeMove | ReversiCoreTests/ReversiSpecificationTests.swift:18-56 | on that board light at (0,2) flips exactly (0,1) |
| ReversiSpecification.CornerDarkBlocked | ReversiCoreTests/ReversiSpecificationTests.swift:18-56 | on that board dark flips nothing at (2,0) or (0,2) and cannot play the occupied corner |
| GamePlayers.PlayerType.RawValue | ReversiCore/DataTypes/GamePlayer.swift:9-12 | manual is 0, computer is 1 |
| GamePlayers.PlayerTypeOfRawValue | Reversi/GamePlayer.swift:9-12 | `PlayerType(rawValue:)` succeeds exactly for 0 and 1, with the type of that raw value |
| GamePlayers.RawValueRoundTrip | Reversi/Player.swift:11-14 | a type read back from its raw value is the same type |
| GamePlayers.GamePlayer.SetType | ReversiCore/DataTypes/GamePlayer.swift:22-24 | only the type changes and the side is kept; the player is unchanged exactly when it already had that type (likewise the copy in `Reversi/GamePlayer.swift`) |
| GamePlayers.GamePlayerEquality | ReversiCore/DataTypes/GamePlayer.swift:14-16 | two players are equal exactly when type and side are equal |
| DiskPositions.EqualityIsComponentwise | Game/DataTypes/DiskPosition.swift:13-14 | positions are equal exactly when x and y are |
| DiskPositions.LessIsStrictPartialOrder | Game/DataTypes/DiskPosition.swift:9-11 | `<` means both coordinates are smaller; it is irreflexive, asymmetric and transitive (likewise the copy in `Reversi/DiskPosition.swift`) |
| DiskPositions.LessIsNotTotal | Reversi/DiskPosition.swift:9-11 | (0,1) and (1,0) differ yet neither is less than the other |
| Cancellers.Canceller.constructor | ReversiCore/Canceller.swift:13-15 | a new canceller is not cancelled and has not run its body |
| Cancellers.Canceller.Cancel | ReversiCore/Canceller.swift:17-21 | afterwards the canceller is cancelled; the body runs on the first cancel only, and a second cancel changes nothing (likewise `Reversi/Core/Canceller.swift`) |
| Cancellers.CancelRepeatedly | Reversi/Core/Canceller.swift:17-21 | any number of cancels runs the body exactly once (never without a body) and leaves the flag set |
| GameCore.DefaultState | Reversi/GameCore.swift:12-18 | `GameState()`: an empty board, two manual players, no turn, no skip, no tap, no computer move |
| GameCore.InitialState | Reversi/GameCore.swift:20-25 | `intialState`: the reset board, both players manual, dark to move, no skip, no tap position |
| GameCore.InitialStateIsPlayable | Reversi/GameCore.swift:20-25 | the starting board is well formed and dark has its four opening moves there |
| GameCore.GameEndIsAboutTheBoard | Reversi/GameCore.swift:55-61 | with a turn set, `isGameEnd` holds exactly when neither colour has a legal move, whichever colour is to move |
| GameCore.AfterDiskPlacedEffect | Reversi/GameCore.swift:63-86 | with no turn, or when the move flips nothing, the state is unchanged; a legal move sets the placed cell and every flipped cell to the mover, leaves all other cells alone, records the tap and flips the turn, changing nothing else; on a well-formed board it adds exactly one disk |
| GameCore.StateAfterDiskPlaced | Reversi/GameCore.swift:63-86 | the `setDisk` loop computes the state `AfterDiskPlacedEffect` describes |
| GameCore.GameReducer | Reversi/GameCore.swift:88-181 | A tap is forwarded as `placeDisk` only when there is a turn and that colour's player is manual. `playerChanged` writes that colour's player and clears the computer move when the colour to move becomes manual. A load response installs the loaded state, or `intialState` on failure. `computerPlay` records the colour to move as playing (nothing without a turn). A computer's answer is placed; with no answer, the current state goes to `updateState`. `turnSkipped` clears `shouldSkip`, flips the turn, then asks a computer player to play or saves. `placeDisk` hands the moved state to `updateState`, and the current state keeps the moved board, which it shares. With no turn, `updateState` changes nothing. If the current state's game is over, turn and tap become nil. Otherwise `shouldSkip` is set when the colour to move has no move. The computer move is always cleared. |
| GameCore.LastMoveEndsGame | Reversi/GameCore.swift:55-86 | a legal move onto the only empty cell leaves a turn set on the moved state, and the current state, holding the moved board, is a finished game |
| GameCore.LastTapEndsGame | Reversi/GameCore.swift:93-175 | a manual tap that fills the last empty cell, run through `placeDisk` and `updateState`, ends with turn nil, tap nil, the moved board, the same players and a save |
| GameCore.PassedBoardCells | ReversiTests/GameCoreTests.swift:281-298 | the test board is well formed: dark everywhere except an empty (0,0) and light at (7,7) |
| GameCore.PassedBoardLightCorner | ReversiTests/GameCoreTests.swift:80-111 | on that board light at (0,0) flips exactly (1,1) to (6,6), the dark diagonal closed by light (7,7) |
| GameCore.DarkAheadOfDiagonal | Reversi/Board.swift:61-83 | a board whose light disks lie only on the diagonal, with nine dark edge cells, has dark as the side with more disks |
| GameCore.WonOn | ReversiTests/GameCoreTests.swift:80-111 | light's move at (0,0) on the test board is legal; the moved state has dark to move, the tap at (0,0), and dark ahead |
| GameCore.WonThenGameEnd | ReversiTests/GameCoreTests.swift:80-111 | the test state (light to move, manual players) meets the conditions of `LastTapEndsGame` at (0,0), the update carries turn dark and tap (0,0), and dark has more disks at the end |
| AppCore.InitialState | Reversi/AppCore.swift:19-24 | the reset board, both manual, dark to move, no skip, no tap |
| AppCore.AgreesWithGameCore | Reversi/AppCore.swift:130-151 | `playTurn` and `stateAfterDiskPlaced` agree on board, turn and tap; both generations' `isGameEnd` agree |
| AppCore.PlayedTurnEffect | Reversi/AppCore.swift:130-151 | no turn or no flips: unchanged; a legal move sets the placed and flipped cells to the mover, leaves the rest, records the tap and flips the turn |
| AppCore.PlayTurn | Reversi/AppCore.swift:130-151 | the `setDisk` loop computes `playTurn`'s specified state |
| AppCore.AppReducer | Reversi/AppCore.swift:64-127 | With no turn, `diskPlaced` changes nothing. Otherwise, judged before the move, a finished game loses its turn. A colour whose opponent has no move gets `shouldSkip`, and its move is not played. Only otherwise is the move played; `saveGame` follows. `playerChanged` writes only that colour's player. A load response installs the loaded or the initial state. `computerPlayResponse` plays the chosen cell; without one, it ends the game or sets `shouldSkip`. `turnSkipped` clears `shouldSkip`, flips the turn and asks a computer player to play. |
| CoreGameManager.Winner | Reversi/Core/GameManager.swift:118-128 | no winner exactly on a tie, otherwise the player of the colour with more disks |
| CoreGameManager.OutcomeCases | Reversi/Core/GameManager.swift:80-91 | after the flip: `.next(activePlayer)` exactly when the new active side has a move; `.pass` exactly when only the other side has one; `.finish` exactly when neither has |
| CoreGameManager.PassIsFollowedByMove | Reversi/Core/GameManager.swift:80-91 | after a pass, the next `nextTurn` on the same board is a `.next` |
| CoreGameManager.PlacedCells | Reversi/Core/GameManager.swift:144-152 | a legal `placeDisk` sets the position and every flipped cell to the active colour and no other cell |
| CoreGameManager.GameManager.NewGame | Reversi/Core/GameManager.swift:53-60 | a reset board, dark active, players [dark manual, light manual] |
| CoreGameManager.GameManager.constructor | Reversi/Core/GameManager.swift:35-50 | the loaded state, or a new game when loading fails; either way the players are in side order and the board in range |
| CoreGameManager.GameManager.RequestStartGame | Reversi/Core/GameManager.swift:134-136 | reports the current state |
| CoreGameManager.GameManager.NextTurn | Reversi/Core/GameManager.swift:80-116 | the active side is always flipped first, and the report is the outcome of that new state; a `.next` names the active player, whose side is the new active side; side order is kept |
| CoreGameManager.GameManager.PlaceDisk | Reversi/Core/GameManager.swift:138-153 | a cell the active side cannot play gives the placement error and leaves the state alone; a legal one sets the position and the flipped cells and keeps the active side; side order and the in-range board are kept |
| CoreGameManager.GameManager.ChangePlayerType | Reversi/Core/GameManager.swift:155-159 | only that side's player type changes, so side order is kept; the active player is reported |
| CoreGameManager.GameManager.RequestResetGame | Reversi/Core/GameManager.swift:165-169 | the state becomes the new game's and is reported |
| ReversiGameManager.LastOfSide | Reversi/GameManager.swift:90-99 | the player kept for a colour is the last loaded player of that colour, or the previous one when none has it |
| ReversiGameManager.SwapAfterTypeChange | Reversi/GameManager.swift:164-171 | with distinct dark and light players the swap alternates; after the active dark player's type is changed, the swap lands on dark again |
| ReversiGameManager.GameManager.constructor | Reversi/GameManager.swift:36-49 | the loaded game, or a new game when loading fails; nothing pending |
| ReversiGameManager.GameManager.NewGame | Reversi/GameManager.swift:52-55 | the board object is reset and the dark player is active |
| ReversiGameManager.GameManager.WaitForPlayer | Reversi/GameManager.swift:58-70 | a computer player to move gets a fresh, uncancelled canceller under its key; otherwise nothing changes |
| ReversiGameManager.GameManager.SetLoadedGame | Reversi/GameManager.swift:90-107 | takes the loaded board object, keeps per colour the last loaded player of that colour, and activates the player of the loaded colour |
| ReversiGameManager.GameManager.TurnPlayer | Reversi/GameManager.swift:164-171 | the dark player hands over to the light player and every other value to the dark player |
| ReversiGameManager.GameManager.NextTurn | Reversi/GameManager.swift:124-162 | no active player: nothing; the active colour can move: swap and report `changedTurn` of the current player; else its opponent can move: swap and report `passedTurn`; else no active player and `finishedGame` with the winner |
| ReversiGameManager.GameManager.JudgeWinner | Reversi/GameManager.swift:173-183 | the player of the colour with more disks, nil on a tie |
| ReversiGameManager.GameManager.ChangedPlayerType | Reversi/GameManager.swift:187-192 | only the active player changes type; the dark and light players stay as they were |
| ReversiGameManager.GameManager.ResettedGame | Reversi/GameManager.swift:198-203 | every pending canceller is cancelled and the map is emptied |
| SaveFormat.Symbol | ReversiCoreTests/Helpers/InMemoryGameStore.swift:27-36 | every cell state is written as one of `x`, `o`, `-` |
| SaveFormat.CellOfSymbol | ReversiCoreTests/Helpers/InMemoryGameStore.swift:14-25 | only `x`, `o` and `-` are accepted |
| SaveFormat.SymbolRoundTrip | ReversiStore/FileGameStateStore.swift:12-36 | `symbol` and `Disk?(symbol:)` are inverse: a bijection between {dark, light, empty} and {`x`, `o`, `-`} (likewise the copies in the other three store files) |
| SaveFormat.DecodedCell | ReversiCoreTests/Helpers/InMemoryGameStore.swift:115-120 | a character gives a disk exactly for `x` and `o`, the disk whose symbol it is |
| SaveFormat.DigitChar | ReversiCoreTests/Helpers/InMemoryGameStore.swift:53-56 | the digit written for a number reads back as that number |
| SaveFormat.DigitValue | ReversiCoreTests/Helpers/InMemoryGameStore.swift:81-87 | `Int` of one character succeeds exactly for `0`…`9` |
| SaveFormat.PlayerOfDigit | ReversiCoreTests/Helpers/InMemoryGameStore.swift:94-101 | a player digit parses exactly for `0` and `1`, and gives back the type whose digit it is |
| SaveFormat.TypeDigits | ReversiCoreTests/Helpers/InMemoryGameStore.swift:54-56 | one digit per player, that player's raw value |
| SaveFormat.RowText | ReversiCoreTests/Helpers/InMemoryGameStore.swift:59-64 | a row is eight symbols, the x-th the symbol of cell (x, y) |
| SaveFormat.Rows | ReversiStore/FileGameStateStore.swift:61-66 | eight rows, top to bottom |
| SaveFormat.Split | ReversiStore/FileGameStateStore.swift:86 | the split lines are never empty and contain no newline |
| SaveFormat.SplitLines | Reversi/GameStateManager.swift:82 | splitting newline-terminated non-empty lines gives them back |
| SaveFormat.BoardOfCells | ReversiCoreTests/Helpers/InMemoryGameStore.swift:105-131 | the loaded board is well formed and each cell holds what its character gives |
| SaveFormat.Decoding | ReversiStore/FileGameStateStore.swift:86-150 | a successful load has two player types and a well-formed board |
| SaveFormat.RowsMustFit | ReversiStore/FileGameStateStore.swift:121-144 | after a good header, loading succeeds exactly when there are eight lines of exactly eight characters, and then the board is the one the rows describe |
| SaveFormat.BoardOfRows | ReversiStore/FileGameStateStore.swift:61-66 | reading back the rows written for a well-formed board gives that board |
| SaveFormat.RoundTrip | ReversiCoreTests/Helpers/InMemoryGameStore.swift:52-136 | decoding the text of a game with a turn and two players gives back that turn, those players and that board |
| SaveFormat.NoTurnDoesNotRoundTrip | Reversi/FileGameStateManager.swift:53-111 | without a turn the header loses its first digit, the first player digit is read as the turn, and the load fails |
| SaveFormat.TurnDigitOutOfRange | ReversiCoreTests/Helpers/InMemoryGameStore.swift:81-88 | a turn digit 2–9 reaches `Disk(index:)` and gives the illegal-index error, whatever follows |
| SaveFormat.EmptyInputFails | ReversiCoreTests/Helpers/InMemoryGameStore.swift:74-77 | empty text, or only newlines, fails to load |
| SaveFormat.UnknownSymbolIsEmpty | Reversi/GameStateManager.swift:121-126 | an unknown board character loads as an empty cell; it still counts toward the row width |
| SaveFormat.EncodeHeader | ReversiCoreTests/Helpers/InMemoryGameStore.swift:53-56 | the header loop writes the turn digit when there is a turn, then one digit per player |
| SaveFormat.EncodeRow | ReversiCoreTests/Helpers/InMemoryGameStore.swift:59-64 | the inner loop writes the eight symbols of one row, left to right |
| SaveFormat.Encode | ReversiCoreTests/Helpers/InMemoryGameStore.swift:52-65 | the text written is exactly `Encoding`: the header line, then eight rows of eight symbols, each line ending in a newline; with no turn there is no turn digit (likewise the encoders of the other three store files) |
| SaveFormat.Decode | ReversiStore/FileGameStateStore.swift:86-150 | the line-popping decoder, with its `x`/`y` counters writing into a `Board`, computes `Decoding` (likewise the decoders of the other three store files) |
| GameStateStores.TypesOf | ReversiStore/FileGameStateStore.swift:56-58 | one type per player, in order |
| GameStateStores.Loaded | ReversiCoreTests/Helpers/InMemoryGameStore.swift:92-103 | loaded players are always dark then light; a load fails exactly when the text does not decode |
| GameStateStores.StoreRoundTrip | ReversiStore/FileGameStateStore.swift:54-150 | save then load gives back the same active side, players and board |
| GameStateStores.ClearedStoreFails | ReversiCoreTests/Helpers/InMemoryGameStore.swift:139-141 | loading after `clear` fails |
| GameStateStores.GameStateStore.constructor | ReversiCoreTests/Helpers/InMemoryGameStore.swift:40 | a new store holds no text |
| GameStateStores.GameStateStore.SaveGame | ReversiCoreTests/Helpers/InMemoryGameStore.swift:48-67 | the saved text becomes the encoding of the turn, players and board |
| GameStateStores.GameStateStore.LoadGame | ReversiCoreTests/Helpers/InMemoryGameStore.swift:70-137 | the result is the decoded saved text |
| GameStateStores.GameStateStore.Clear | ReversiCoreTests/Helpers/InMemoryGameStore.swift:139-141 | the saved text becomes empty |
| GameStateStores.SaveLoadClear | ReversiCoreTests/Helpers/InMemoryGameStore.swift:48-141 | a saved game loads back; after `clear` the load fails |
| GameStateManagers.Loaded | Reversi/GameStateManager.swift:136-140 | a loaded state always has a turn, `shouldSkip` false, and no tap or computer move; a load fails exactly when the text does not decode |
| GameStateManagers.StateRoundTrip | Reversi/GameStateManager.swift:52-140 | a state with a turn saves and loads back with the same board, players and turn, and `shouldSkip` false |
| GameStateManagers.FinishedGameDoesNotRoundTrip | Reversi/GameStateManager.swift:53-110 | a state with no turn is saved in a form whose load fails |
| GameStateManagers.SaveGame | Reversi/GameStateManager.swift:50-64 | the text written for a state |
| GameStateManagers.LoadGame | Reversi/FileGameStateManager.swift:75-142 | the state read from a text |
| GameStateManagers.MockGameStateManager.constructor | Reversi/GameStateManager.swift:164 | nothing is saved at first |
| GameStateManagers.MockGameStateManager.SaveGame | Reversi/GameStateManager.swift:150-153 | the state is stored under its id, replacing any earlier one |
| GameStateManagers.MockGameStateManager.LoadGame | Reversi/GameStateManager.swift:154-160 | fails when nothing is stored under the id; otherwise returns it and forgets it |
| GameStateManagers.MockLoadsOnce | Reversi/GameStateManager.swift:148-161 | the last saved state is returned once, and a second load fails |
| LoginCore.NewLoginState | Login/LoginCore.swift:19-25 | init copies the fields, takes `loginButtonEnabled` as `canRequestLogin`, and no request is running |
| LoginCore.ConfigureLoginButton | Login/LoginCore.swift:49-55 | with both fields present the flag is "both non-empty"; with either missing nothing changes |
| LoginCore.LoginReducer | Login/LoginCore.swift:57-88 | edits store the new value and re-apply the button rule; a request sets requesting and disables; success enables and stops requesting; failure clears the password, records the error and stops requesting, leaving the flag; dismissing clears only the error |
| LoginCore.TypeCredentials | Login/LoginCore.swift:49-65 | after entering an email and then a password, login can be requested exactly when both are non-empty |
| ReversiLoginCore.InitialLoginState | Reversi/LoginCore.swift:12-17 | nothing entered, no error, the button disabled |
| ReversiLoginCore.ConfigureLoginButton | Reversi/LoginCore.swift:61-67 | enabled exactly when both fields are present and non-empty; unchanged when either is missing |
| ReversiLoginCore.LoginReducer | Reversi/LoginCore.swift:69-96 | edits store the new value and re-apply the rule; a tap disables the button; success re-enables it; failure only records the error and keeps the password; dismissing clears the error |
| ReversiLoginCore.EnterCredentials | Reversi/LoginCore.swift:61-77 | from the initial state the button stays disabled after the email alone, and after the password is enabled exactly when both are non-empty |
| AppRoot.AppReducer | App/AppCore.swift:60-95 | logged in or login done: a fresh game and no login; not logged in or logout done: no game and a fresh login; after each of these exactly one screen is shown; launch and forwarded actions leave both alone |
| AppRoot.ScreensStayExclusive | App/AppCore.swift:64-79 | from a state showing one screen, any action and its follow-up still show exactly one screen |

## Left out

- User interface, animation, the two-second computer delay, the random choice of a computer move and the random login client are not modelled. A computer's choice arrives as the payload of `computerPlayResponse`. The login outcome arrives as the payload of `loginResponse`.
- File and `UserDefaults` reads and writes are not modelled, nor the path computation. The codec works on the text itself. `GameStateStores.GameStateStore.savedData` stands for both the in-memory string and the file's contents.
- The effect machinery (`Effect`, `catchToEffect`, `concatenate`, `cancellable`, `pullback`, `optional`) is not modelled. A reducer returns only the follow-up action that its effect maps every outcome to. Actions that depend on a load, a save or the computer return none. The `.cancel` in `playerChanged` is not modelled.
- The delegate calls and `save()` of both game managers are not modelled. The reports `NextTurn` and `PlaceDisk` make are returned as values instead.
- GameCore.GameReducer: the `Board` of this generation is shared by reference, but its declaration is not part of this model. The model keeps the board's contents as a value. It writes out the one sharing the reducer relies on: `placeDisk` leaves the moved board in the current state. Other aliasing is not captured. A state saved by the store, or carried by a pending `updateState`, does not see later writes. A `placeDisk` cancelled before its `updateState` arrives keeps the moved board with the old turn in the source; the model does not model cancellation.
- CoreGameManager.GameManager.PlaceDisk: `setDisks` of the shared `Board` is not part of this model, so its completion flag is not modelled. The move is always reported as set.
- AppCore.AppReducer: `computerPlay` force-unwraps the turn, so the model requires a turn for that action. The effect it starts is not modelled.
- The type `Disk` is not part of this model. It is taken as dark/light, with `index` and `init(index:)` as written in `Reversi/GameViewController.swift`. The precondition failure there becomes the error value `IllegalTurnIndex`.
- `Reversi/GameManager.swift` is written against a `GamePlayer(type:turn:)` whose `setType` returns a new player. The model uses `GamePlayers.GamePlayer` with its `side` and the copying `SetType`. `Reversi/GameState.swift` is not part of this model; the loaded game is the `LoadedGame` value.
- In `App/AppCore.swift`, the `Game` module's own `GameState` and `GameAction` are not part of this model. `GameCore` stands for them, and `.game(.logout)` is `GameCore.LogoutButtonTapped`.
- Swift `Character`s are grapheme clusters, so the pair `\r\n` is one character there. The model reads one `char` at a time and does not fold such pairs.
- `canPlaceDisk` can hold for an off-board coordinate whose rays reach the board. Only `validMoves` and taps ask it, and they ask only for on-board cells. The model keeps the behaviour as written.
- The final `y == height` guard of the decoders always holds after eight lines. The model asserts it instead of branching on it.
