/**
 * The text format every game store of the repository reads and writes:
 * a header line with the turn digit (0 dark, 1 light; absent when there is
 * no turn) and one digit per player (0 manual, 1 computer), then one line
 * per board row holding one symbol per cell: `x` dark, `o` light, `-` empty.
 * Lines end with a newline. Loading splits the text at newlines, dropping
 * empty lines, as Swift's `split(separator:)` does.
 */
module SaveFormat {
  import opened Wrappers
  import opened DiskColors
  import opened Boards
  import opened GamePlayers

  /** `symbol`: the character written for a cell. */
  function Symbol(cell: Option<Disk>): (c: char)
    ensures c == 'x' || c == 'o' || c == '-'
  {
    match cell
    case Some(Dark) => 'x'
    case Some(Light) => 'o'
    case None => '-'
  }

  /** `Disk?(symbol:)`: the cell a symbol stands for; None for any other character. */
  function CellOfSymbol(c: char): (r: Option<Option<Disk>>)
    ensures r.None? <==> c != 'x' && c != 'o' && c != '-'
  {
    if c == 'x' then Some(Some(Dark))
    else if c == 'o' then Some(Some(Light))
    else if c == '-' then Some(None)
    else None
  }

  /** The two mappings are inverse: a bijection between the three cell states and `x`, `o`, `-`. */
  lemma SymbolRoundTrip(cell: Option<Disk>, c: char)
    ensures CellOfSymbol(Symbol(cell)) == Some(cell)
    ensures CellOfSymbol(c) == Some(cell) <==> Symbol(cell) == c
  {
  }

  /**
   * The disk the loader puts on a cell for a character: `x` and `o` give a
   * disk; `-` and every unknown character leave the cell empty.
   */
  function DecodedCell(c: char): (r: Option<Disk>)
    ensures r.Some? <==> c == 'x' || c == 'o'
    ensures forall cell: Option<Disk> :: c == Symbol(cell) ==> r == cell
  {
    match CellOfSymbol(c)
    case Some(cell) => cell
    case None => None
  }

  /** `n.description` for a single decimal digit. */
  function DigitChar(n: nat): (c: char)
    requires n < 10
    ensures DigitValue(c) == Some(n)
  {
    (n + '0' as int) as char
  }

  /** `Int(String(c))` for one character: only the ten decimal digits parse. */
  function DigitValue(c: char): (r: Option<nat>)
    ensures r.Some? <==> '0' <= c <= '9'
    ensures r.Some? ==> r.value < 10
  {
    if '0' <= c <= '9' then Some(c as int - '0' as int) else None
  }

  /** `PlayerType(rawValue: Int(String(c)))`. */
  function PlayerOfDigit(c: char): (r: Option<PlayerType>)
    ensures r.Some? <==> c == '0' || c == '1'
    ensures forall t: PlayerType :: c == DigitChar(t.RawValue()) ==> r == Some(t)
  {
    match DigitValue(c)
    case None => None
    case Some(n) => PlayerTypeOfRawValue(n)
  }

  /** One raw-value digit per player, in order. */
  function TypeDigits(types: seq<PlayerType>): (s: string)
    ensures |s| == |types|
    ensures forall i | 0 <= i < |types| :: s[i] == DigitChar(types[i].RawValue())
  {
    if types == [] then []
    else TypeDigits(types[..|types| - 1]) + [DigitChar(types[|types| - 1].RawValue())]
  }

  /** The header line: the turn digit when there is a turn, then the player digits. */
  function Header(turn: Option<Disk>, types: seq<PlayerType>): string
  {
    (if turn.Some? then [DigitChar(turn.value.Index())] else []) + TypeDigits(types)
  }

  /** The symbols of row `y`, left to right. */
  function RowText(d: Disks, y: int): (row: string)
    ensures |row| == Width
    ensures forall x | 0 <= x < Width :: row[x] == Symbol(DiskAt(d, x, y))
  {
    seq(Width, x requires 0 <= x < Width => Symbol(DiskAt(d, x, y)))
  }

  /** The rows, top to bottom. */
  function Rows(d: Disks): (rows: seq<string>)
    ensures |rows| == Height
    ensures forall y | 0 <= y < Height :: rows[y] == RowText(d, y)
  {
    seq(Height, y requires 0 <= y < Height => RowText(d, y))
  }

  /** Each line followed by a newline. */
  function Lines(ls: seq<string>): string
  {
    if ls == [] then "" else Lines(ls[..|ls| - 1]) + ls[|ls| - 1] + "\n"
  }

  /** The saved text: the header line, then the eight rows. */
  function Encoding(turn: Option<Disk>, types: seq<PlayerType>, d: Disks): string
  {
    Lines([Header(turn, types)] + Rows(d))
  }

  /** Where the first line of `s` ends: its first newline, or its end. */
  function LineEnd(s: string): (i: nat)
    ensures i <= |s|
    ensures forall k | 0 <= k < i :: s[k] != '\n'
    ensures i < |s| ==> s[i] == '\n'
  {
    if s == [] || s[0] == '\n' then 0 else 1 + LineEnd(s[1..])
  }

  /** `split(separator: "\n")`: the lines of `s`, leaving out empty ones. */
  function Split(s: string): (lines: seq<string>)
    ensures forall i | 0 <= i < |lines| :: lines[i] != [] && '\n' !in lines[i]
    decreases |s|
  {
    if s == [] then []
    else
      var i := LineEnd(s);
      var rest := if i < |s| then Split(s[i + 1..]) else [];
      if i == 0 then rest else [s[..i]] + rest
  }

  lemma {:induction false} LinesFront(l: string, ls: seq<string>)
    ensures Lines([l] + ls) == l + "\n" + Lines(ls)
    decreases |ls|
  {
    if ls != [] {
      var init := ls[..|ls| - 1];
      assert ([l] + ls)[..|ls|] == [l] + init;
      LinesFront(l, init);
    }
  }

  lemma {:induction false} LineEndOf(l: string, rest: string)
    requires '\n' !in l
    ensures LineEnd(l + "\n" + rest) == |l|
    decreases |l|
  {
    if l != [] {
      assert (l + "\n" + rest)[1..] == l[1..] + "\n" + rest;
      LineEndOf(l[1..], rest);
    }
  }

  /** Splitting the written lines gives them back when none is empty. */
  lemma {:induction false} SplitLines(ls: seq<string>)
    requires forall i | 0 <= i < |ls| :: ls[i] != [] && '\n' !in ls[i]
    ensures Split(Lines(ls)) == ls
    decreases |ls|
  {
    if ls != [] {
      var l, rest := ls[0], ls[1..];
      assert ls == [l] + rest;
      LinesFront(l, rest);
      var s := l + "\n" + Lines(rest);
      LineEndOf(l, Lines(rest));
      assert s[..|l|] == l;
      assert s[|l| + 1..] == Lines(rest);
      SplitLines(rest);
    }
  }

  datatype LoadError =
    | Unreadable
      /** A turn digit that is not a disk index, which `Disk(index:)` refuses. */
    | IllegalTurnIndex(index: nat)

  /** What a successful load yields before it is turned into a game state. */
  datatype Snapshot = Snapshot(turn: Disk, types: seq<PlayerType>, board: Disks)

  /** Exactly eight lines of exactly eight characters. */
  predicate RowsFit(rows: seq<string>)
  {
    |rows| == Height && forall y | 0 <= y < |rows| :: |rows[y]| == Width
  }

  function AllCells(): set<Position>
  {
    set x: int, y: int | 0 <= x < Width && 0 <= y < Height :: Position(x, y)
  }

  /** The board the loader builds from eight rows that fit. */
  function BoardOf(rows: seq<string>): Disks
    requires RowsFit(rows)
  {
    map p | p in AllCells() && IsInRange(p.x, p.y) && DecodedCell(rows[p.y][p.x]).Some? ::
      DecodedCell(rows[p.y][p.x]).value
  }

  /** The disk a character of the text puts on (x, y); None where there is none. */
  function CellText(rows: seq<string>, x: int, y: int): Option<Disk>
  {
    if 0 <= y < |rows| && 0 <= x < |rows[y]| then DecodedCell(rows[y][x]) else None
  }

  lemma BoardOfCells(rows: seq<string>)
    requires RowsFit(rows)
    ensures WellFormed(BoardOf(rows))
    ensures forall x, y | IsInRange(x, y) :: DiskAt(BoardOf(rows), x, y) == CellText(rows, x, y)
  {
    forall x, y | IsInRange(x, y)
      ensures DiskAt(BoardOf(rows), x, y) == CellText(rows, x, y)
    {
      assert Position(x, y) in AllCells();
    }
  }

  /**
   * `loadGame` without the file read: the header's first character is the
   * turn, the next two the players of dark and light; then exactly eight
   * rows of exactly eight characters.
   */
  function Decoding(input: string): (r: Result<Snapshot, LoadError>)
    ensures r.Ok? ==> |r.value.types| == |Sides| && WellFormed(r.value.board)
  {
    var lines := Split(input);
    if lines == [] || DigitValue(lines[0][0]).None? then Err(Unreadable)
    else
      var index := DigitValue(lines[0][0]).value;
      match DiskOfIndex(index)
      case None => Err(IllegalTurnIndex(index))
      case Some(turn) =>
        var players := lines[0][1..];
        if |players| < |Sides| || PlayerOfDigit(players[0]).None? || PlayerOfDigit(players[1]).None? then
          Err(Unreadable)
        else if !RowsFit(lines[1..]) then Err(Unreadable)
        else Ok(Snapshot(turn, [PlayerOfDigit(players[0]).value, PlayerOfDigit(players[1]).value],
                         BoardOf(lines[1..])))
  }

  /** A header line that a load accepts: a disk digit, then two player digits. */
  predicate GoodHeader(h: string)
  {
    |h| >= 3 && (h[0] == '0' || h[0] == '1') && (h[1] == '0' || h[1] == '1') && (h[2] == '0' || h[2] == '1')
  }

  /** Lines a load sees unchanged: not empty, no newline inside. */
  predicate PlainLines(ls: seq<string>)
  {
    forall i | 0 <= i < |ls| :: ls[i] != [] && '\n' !in ls[i]
  }

  lemma HeaderIsPlain(turn: Disk, types: seq<PlayerType>)
    requires |types| == |Sides|
    ensures GoodHeader(Header(Some(turn), types)) && '\n' !in Header(Some(turn), types)
  {
    var h := Header(Some(turn), types);
    assert h[0] == DigitChar(turn.Index());
    assert h[1..] == TypeDigits(types);
  }

  lemma RowsArePlain(d: Disks)
    ensures PlainLines(Rows(d)) && RowsFit(Rows(d))
  {
    forall y | 0 <= y < Height
      ensures '\n' !in Rows(d)[y]
    {
      var row := Rows(d)[y];
      forall x | 0 <= x < |row|
        ensures row[x] != '\n'
      {
        assert row[x] == Symbol(DiskAt(d, x, y));
      }
    }
  }

  /** Reading back the rows written for a well-formed board gives that board. */
  lemma BoardOfRows(d: Disks)
    requires WellFormed(d)
    ensures RowsFit(Rows(d)) && BoardOf(Rows(d)) == d
  {
    RowsArePlain(d);
    BoardOfCells(Rows(d));
    forall x, y | IsInRange(x, y)
      ensures DiskAt(BoardOf(Rows(d)), x, y) == DiskAt(d, x, y)
    {
      assert Rows(d)[y][x] == Symbol(DiskAt(d, x, y));
    }
    BoardsEqual(BoardOf(Rows(d)), d);
  }

  /**
   * Decoding accepts a good header followed by plain lines exactly when
   * there are eight of them and each has eight characters.
   */
  lemma {:induction false} RowsMustFit(h: string, rows: seq<string>)
    requires GoodHeader(h) && '\n' !in h && PlainLines(rows)
    ensures Decoding(Lines([h] + rows)).Ok? <==> RowsFit(rows)
    ensures Decoding(Lines([h] + rows)).Ok? ==> Decoding(Lines([h] + rows)).value.board == BoardOf(rows)
  {
    SplitLines([h] + rows);
    assert ([h] + rows)[1..] == rows;
  }

  /**
   * The round trip: a saved game with a turn and two players loads back with
   * the same turn, players and board.
   */
  lemma {:induction false} RoundTrip(turn: Disk, types: seq<PlayerType>, d: Disks)
    requires |types| == |Sides| && WellFormed(d)
    ensures Decoding(Encoding(Some(turn), types, d)) == Ok(Snapshot(turn, types, d))
  {
    var h := Header(Some(turn), types);
    HeaderIsPlain(turn, types);
    RowsArePlain(d);
    BoardOfRows(d);
    RowsMustFit(h, Rows(d));
    SplitLines([h] + Rows(d));
    var lines := Split(Encoding(Some(turn), types, d));
    assert lines[0] == h && lines[1..] == Rows(d);
    assert h[0] == DigitChar(turn.Index());
    IndexRoundTrip(turn);
    assert h[1..] == TypeDigits(types);
    assert [types[0], types[1]] == types;
  }

  /**
   * A game without a turn does not load back: its header lacks the turn
   * digit, the first player digit is read as the turn, and the second
   * player digit is missing.
   */
  lemma {:induction false} NoTurnDoesNotRoundTrip(types: seq<PlayerType>, d: Disks)
    requires |types| == |Sides|
    ensures Decoding(Encoding(None, types, d)) == Err(Unreadable)
  {
    var h := Header(None, types);
    assert h == TypeDigits(types);
    RowsArePlain(d);
    assert PlainLines([h] + Rows(d));
    SplitLines([h] + Rows(d));
    var lines := Split(Encoding(None, types, d));
    assert lines[0] == h;
    assert h[0] == DigitChar(types[0].RawValue());
  }

  /** A turn digit from 2 to 9 is refused as a disk index, whatever follows it. */
  lemma {:induction false} TurnDigitOutOfRange(h: string, rest: string)
    requires h != [] && '\n' !in h && '2' <= h[0] <= '9'
    ensures Decoding(h + "\n" + rest) == Err(IllegalTurnIndex(h[0] as int - '0' as int))
  {
    var s := h + "\n" + rest;
    LineEndOf(h, rest);
    assert s[..|h|] == h;
  }

  /** Empty text, or text of newlines only, holds no game. */
  lemma EmptyInputFails()
    ensures Decoding("") == Err(Unreadable)
    ensures Decoding("\n\n") == Err(Unreadable)
  {
    assert Split("\n\n") == Split("\n\n"[1..]);
    assert Split("\n") == Split("\n"[1..]);
  }

  /** An unknown character in a row that fits loads as an empty cell. */
  lemma UnknownSymbolIsEmpty(rows: seq<string>, x: int, y: int)
    requires RowsFit(rows) && IsInRange(x, y)
    requires CellOfSymbol(rows[y][x]).None?
    ensures DiskAt(BoardOf(rows), x, y) == None
  {
    BoardOfCells(rows);
  }

  /** The text grows by one line per row written. */
  lemma EncodedRow(header: string, d: Disks, y: int)
    requires 0 <= y < Height
    ensures Lines([header] + Rows(d)[..y + 1]) == Lines([header] + Rows(d)[..y]) + RowText(d, y) + "\n"
  {
    assert ([header] + Rows(d)[..y + 1])[..y + 1] == [header] + Rows(d)[..y];
  }

  /** The header line of `saveGame`: the turn digit, then one digit per player. */
  method EncodeHeader(turn: Option<Disk>, types: seq<PlayerType>) returns (line: string)
    ensures line == Header(turn, types)
  {
    line := "";
    if turn.Some? {
      line := line + [DigitChar(turn.value.Index())];
    }
    ghost var turnDigit := line;
    for i := 0 to |types|
      invariant line == turnDigit + TypeDigits(types[..i])
    {
      assert types[..i + 1][..i] == types[..i];
      line := line + [DigitChar(types[i].RawValue())];
    }
    assert types[..|types|] == types;
  }

  /** One board row of `saveGame`: the symbols of row `y`, left to right. */
  method EncodeRow(d: Disks, y: int) returns (line: string)
    ensures line == RowText(d, y)
  {
    line := "";
    for x := 0 to Width
      invariant line == RowText(d, y)[..x]
    {
      assert RowText(d, y)[..x + 1] == RowText(d, y)[..x] + [Symbol(DiskAt(d, x, y))];
      line := line + [Symbol(DiskAt(d, x, y))];
    }
    assert RowText(d, y)[..Width] == RowText(d, y);
  }

  /** `saveGame` without the file write: the header line, then one line per row. */
  method Encode(turn: Option<Disk>, types: seq<PlayerType>, d: Disks) returns (output: string)
    ensures output == Encoding(turn, types, d)
  {
    ghost var header := Header(turn, types);
    var line := EncodeHeader(turn, types);
    output := line + "\n";
    assert output == Lines([header]);
    for y := 0 to Height
      invariant output == Lines([header] + Rows(d)[..y])
    {
      line := EncodeRow(d, y);
      EncodedRow(header, d, y);
      output := output + line + "\n";
    }
    assert Rows(d)[..Height] == Rows(d);
  }

  /**
   * The board rows loaded so far: every on-board cell of an earlier row,
   * and of the current row left of `x`, holds what its character gives;
   * every other cell is empty.
   */
  ghost predicate LoadedUpTo(d: Disks, rows: seq<string>, y: int, x: int)
  {
    && WellFormed(d)
    && forall cx, cy | IsInRange(cx, cy) ::
         DiskAt(d, cx, cy) == if cy < y || (cy == y && cx < x) then CellText(rows, cx, cy) else None
  }

  lemma LoadedStep(d: Disks, rows: seq<string>, y: int, x: int)
    requires LoadedUpTo(d, rows, y, x) && 0 <= y < |rows| && 0 <= x < |rows[y]|
    ensures DecodedCell(rows[y][x]).Some? ==> LoadedUpTo(WithDisk(d, DecodedCell(rows[y][x]).value, x, y), rows, y, x + 1)
    ensures DecodedCell(rows[y][x]).None? ==> LoadedUpTo(d, rows, y, x + 1)
  {
    if DecodedCell(rows[y][x]).Some? {
      WithDiskCells(d, DecodedCell(rows[y][x]).value, x, y);
    }
  }

  lemma LoadedRow(d: Disks, rows: seq<string>, y: int)
    requires 0 <= y < |rows| && |rows[y]| == Width && LoadedUpTo(d, rows, y, |rows[y]|)
    ensures LoadedUpTo(d, rows, y + 1, 0)
  {
  }

  lemma LoadedAll(d: Disks, rows: seq<string>)
    requires RowsFit(rows) && LoadedUpTo(d, rows, Height, 0)
    ensures d == BoardOf(rows)
  {
    BoardOfCells(rows);
    BoardsEqual(d, BoardOf(rows));
  }

  /**
   * `loadGame` without the file read: the header is read character by
   * character, then the rows are read one at a time into a new `Board`,
   * each character at its own column.
   */
  method Decode(input: string) returns (r: Result<Snapshot, LoadError>)
    ensures r == Decoding(input)
  {
    var lines := Split(input);
    if lines == [] {
      return Err(Unreadable);
    }
    var line := lines[0];
    lines := lines[1..];
    var digit := DigitValue(line[0]);
    if digit.None? {
      return Err(Unreadable);
    }
    var turn := DiskOfIndex(digit.value);
    if turn.None? {
      return Err(IllegalTurnIndex(digit.value));
    }
    line := line[1..];
    ghost var header := line;
    var types: seq<PlayerType> := [];
    for i := 0 to |Sides|
      invariant i <= |header| && line == header[i..]
      invariant |types| == i
      invariant forall k | 0 <= k < i :: PlayerOfDigit(header[k]) == Some(types[k])
    {
      if line == [] {
        return Err(Unreadable);
      }
      var playerType := PlayerOfDigit(line[0]);
      if playerType.None? {
        return Err(Unreadable);
      }
      types := types + [playerType.value];
      line := line[1..];
    }
    if |lines| != Height {
      return Err(Unreadable);
    }
    ghost var rows := lines;
    var board := new Board();
    var y := 0;
    while lines != []
      invariant 0 <= y <= Height && lines == rows[y..]
      invariant forall k | 0 <= k < y :: |rows[k]| == Width
      invariant board.Valid() && LoadedUpTo(board.disks, rows, y, 0)
      decreases |lines|
    {
      line := lines[0];
      lines := lines[1..];
      var x := 0;
      for j := 0 to |line|
        invariant x == j && board.Valid() && LoadedUpTo(board.disks, rows, y, x)
      {
        LoadedStep(board.disks, rows, y, x);
        var disk := DecodedCell(line[j]);
        if disk.Some? {
          var _ := board.SetDisk(disk.value, x, y);
        }
        x := x + 1;
      }
      if x != Width {
        return Err(Unreadable);
      }
      LoadedRow(board.disks, rows, y);
      y := y + 1;
    }
    assert y == Height && RowsFit(rows);
    LoadedAll(board.disks, rows);
    assert types == [PlayerOfDigit(header[0]).value, PlayerOfDigit(header[1]).value];
    r := Ok(Snapshot(turn.value, types, board.disks));
  }
}
