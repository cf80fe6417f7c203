/**
 * The rules of Reversi/ReversiSpecification.swift: which disks a move flips,
 * whether a cell is playable, and the list of playable cells.
 *
 * `Flips`, `Placeable` and `MovesOf` are the specification; the methods
 * `FlippedDiskCoordinatesByPlacingDisk`, `CanPlaceDisk` and `ValidMoves` are
 * the source's loops, proved to compute them. All of them take the board's
 * contents by value, so none of them can change the board.
 */
module ReversiSpecification {
  import opened Wrappers
  import opened DiskColors
  import opened Boards

  /** The search visits the directions in this order: NW, N, NE, E, SE, S, W, SW. */
  const Directions: seq<(int, int)> :=
    [(-1, -1), (0, -1), (1, -1), (1, 0), (1, 1), (0, 1), (-1, 0), (-1, 1)]

  /** A unit step in one of the eight compass directions. */
  predicate IsStep(dx: int, dy: int)
  {
    -1 <= dx <= 1 && -1 <= dy <= 1 && !(dx == 0 && dy == 0)
  }

  lemma DirectionIsStep(k: nat)
    requires k < |Directions|
    ensures IsStep(Directions[k].0, Directions[k].1)
  {
    assert k == 0 || k == 1 || k == 2 || k == 3 || k == 4 || k == 5 || k == 6 || k == 7;
  }

  /** How many more steps of `dp` stay inside 0..<size: at most 7 on this board. */
  function StepsLeft(p: int, dp: int, size: int): nat
  {
    if dp > 0 then (if p < size - 1 then size - 1 - p else 0)
    else if dp < 0 then (if p > 0 then p else 0)
    else 0
  }

  /**
   * One ray of the search, continued from the cell (x, y) with the run `line`
   * of opposite-colour disks collected so far: the run is kept when the next
   * disk is the mover's colour and dropped at an empty or off-board cell.
   */
  function Walk(d: Disks, disk: Disk, x: int, y: int, dx: int, dy: int, line: seq<Position>): seq<Position>
    requires IsStep(dx, dy)
    decreases StepsLeft(x, dx, Width) + StepsLeft(y, dy, Height)
  {
    match DiskAt(d, x + dx, y + dy)
    case None => []
    case Some(found) =>
      if found == disk then line
      else Walk(d, disk, x + dx, y + dy, dx, dy, line + [Position(x + dx, y + dy)])
  }

  /** The disks direction `k` contributes when `disk` is placed at (x, y). */
  function Ray(d: Disks, disk: Disk, x: int, y: int, k: nat): seq<Position>
    requires k < |Directions|
  {
    DirectionIsStep(k);
    Walk(d, disk, x, y, Directions[k].0, Directions[k].1, [])
  }

  /** The contributions of the first `n` directions, in direction order. */
  function FlipsUpTo(d: Disks, disk: Disk, x: int, y: int, n: nat): seq<Position>
    requires n <= |Directions|
  {
    if n == 0 then [] else FlipsUpTo(d, disk, x, y, n - 1) + Ray(d, disk, x, y, n - 1)
  }

  /** The disks flipped by placing `disk` at (x, y): nothing on an occupied cell. */
  function Flips(d: Disks, disk: Disk, x: int, y: int): seq<Position>
  {
    if DiskAt(d, x, y).Some? then [] else FlipsUpTo(d, disk, x, y, |Directions|)
  }

  /** `canPlaceDisk`: a move is legal exactly when it flips something. */
  predicate Placeable(d: Disks, disk: Disk, x: int, y: int)
  {
    Flips(d, disk, x, y) != []
  }

  /** `flippedDiskCoordinatesByPlacingDisk`: one `while true` walk per direction. */
  method FlippedDiskCoordinatesByPlacingDisk(disk: Disk, x: int, y: int, board: Disks)
    returns (coordinates: seq<Position>)
    ensures coordinates == Flips(board, disk, x, y)
  {
    if DiskAt(board, x, y).Some? {
      return [];
    }
    coordinates := [];
    for k := 0 to |Directions|
      invariant coordinates == FlipsUpTo(board, disk, x, y, k)
    {
      DirectionIsStep(k);
      var dx, dy := Directions[k].0, Directions[k].1;
      var cx, cy := x, y;
      var line: seq<Position> := [];
      while true
        invariant coordinates == FlipsUpTo(board, disk, x, y, k)
        invariant Walk(board, disk, cx, cy, dx, dy, line) == Ray(board, disk, x, y, k)
        decreases StepsLeft(cx, dx, Width) + StepsLeft(cy, dy, Height)
      {
        cx, cy := cx + dx, cy + dy;
        match DiskAt(board, cx, cy)
        case Some(found) =>
          if found == disk {
            coordinates := coordinates + line;
            break;
          }
          line := line + [Position(cx, cy)];
        case None =>
          assert Ray(board, disk, x, y, k) == [];
          break;
      }
    }
  }

  /** `canPlaceDisk`. */
  method CanPlaceDisk(disk: Disk, x: int, y: int, board: Disks) returns (placeable: bool)
    ensures placeable <==> Flips(board, disk, x, y) != []
    ensures DiskAt(board, x, y).Some? ==> !placeable
  {
    var flipped := FlippedDiskCoordinatesByPlacingDisk(disk, x, y, board);
    placeable := flipped != [];
  }

  // ---------------------------------------------------------------------------
  // What a ray contributes

  /** The cell i steps from (x, y) along (dx, dy). */
  function Along(x: int, y: int, dx: int, dy: int, i: nat): Position
  {
    if i == 0 then Position(x, y)
    else
      var p := Along(x, y, dx, dy, i - 1);
      Position(p.x + dx, p.y + dy)
  }

  /** The first `n` cells outward from (x, y) along (dx, dy), nearest first. */
  function RunCells(x: int, y: int, dx: int, dy: int, n: nat): seq<Position>
  {
    seq(n, i requires 0 <= i => Along(x, y, dx, dy, i + 1))
  }

  /** The disk found i steps from (x, y) along (dx, dy). */
  function DiskAlong(d: Disks, x: int, y: int, dx: int, dy: int, i: nat): Option<Disk>
  {
    var p := Along(x, y, dx, dy, i);
    DiskAt(d, p.x, p.y)
  }

  lemma {:induction false} WalkFrom(d: Disks, disk: Disk, x: int, y: int, dx: int, dy: int, j: nat, n: nat)
    requires IsStep(dx, dy) && j < n
    requires forall i | 1 <= i < n :: DiskAlong(d, x, y, dx, dy, i) == Some(disk.Flipped())
    requires DiskAlong(d, x, y, dx, dy, n) != Some(disk.Flipped())
    ensures Walk(d, disk, Along(x, y, dx, dy, j).x, Along(x, y, dx, dy, j).y, dx, dy, RunCells(x, y, dx, dy, j)) ==
      if DiskAlong(d, x, y, dx, dy, n) == Some(disk) then RunCells(x, y, dx, dy, n - 1) else []
    decreases n - j
  {
    var next := Along(x, y, dx, dy, j + 1);
    if j + 1 < n {
      assert DiskAlong(d, x, y, dx, dy, j + 1) == Some(disk.Flipped());
      assert RunCells(x, y, dx, dy, j) + [next] == RunCells(x, y, dx, dy, j + 1);
      WalkFrom(d, disk, x, y, dx, dy, j + 1, n);
    }
  }

  /**
   * Direction `k` contributes exactly the run of opposite-colour disks next to
   * (x, y) when the first cell after it holds the mover's colour, and nothing
   * when that cell is empty or off the board.
   */
  lemma {:induction false} RayOutcome(d: Disks, disk: Disk, x: int, y: int, k: nat, n: nat)
    requires k < |Directions| && 1 <= n
    requires forall i | 1 <= i < n ::
      DiskAlong(d, x, y, Directions[k].0, Directions[k].1, i) == Some(disk.Flipped())
    requires DiskAlong(d, x, y, Directions[k].0, Directions[k].1, n) != Some(disk.Flipped())
    ensures Ray(d, disk, x, y, k) ==
      if DiskAlong(d, x, y, Directions[k].0, Directions[k].1, n) == Some(disk)
      then RunCells(x, y, Directions[k].0, Directions[k].1, n - 1)
      else []
  {
    DirectionIsStep(k);
    WalkFrom(d, disk, x, y, Directions[k].0, Directions[k].1, 0, n);
    assert RunCells(x, y, Directions[k].0, Directions[k].1, 0) == [];
  }

  // ---------------------------------------------------------------------------
  // Soundness of the flipped list

  /** The cells a move may flip: on the board and holding the opponent's colour. */
  ghost predicate FlippableBy(d: Disks, disk: Disk, p: Position)
  {
    IsInRange(p.x, p.y) && DiskAt(d, p.x, p.y) == Some(disk.Flipped())
  }

  lemma {:induction false} WalkSound(d: Disks, disk: Disk, x: int, y: int, dx: int, dy: int, line: seq<Position>)
    requires IsStep(dx, dy)
    requires forall p | p in line :: FlippableBy(d, disk, p)
    ensures forall p | p in Walk(d, disk, x, y, dx, dy, line) :: FlippableBy(d, disk, p)
    decreases StepsLeft(x, dx, Width) + StepsLeft(y, dy, Height)
  {
    match DiskAt(d, x + dx, y + dy)
    case None =>
    case Some(found) =>
      if found != disk {
        assert found == disk.Flipped();
        WalkSound(d, disk, x + dx, y + dy, dx, dy, line + [Position(x + dx, y + dy)]);
      }
  }

  lemma {:induction false} FlipsUpToSound(d: Disks, disk: Disk, x: int, y: int, n: nat)
    requires n <= |Directions|
    ensures forall p | p in FlipsUpTo(d, disk, x, y, n) :: FlippableBy(d, disk, p)
  {
    if n > 0 {
      FlipsUpToSound(d, disk, x, y, n - 1);
      DirectionIsStep(n - 1);
      WalkSound(d, disk, x, y, Directions[n - 1].0, Directions[n - 1].1, []);
    }
  }

  /**
   * Every flipped coordinate is on the board and holds the opponent's colour;
   * an occupied cell flips nothing and is never playable.
   */
  lemma FlipsSound(d: Disks, disk: Disk, x: int, y: int)
    ensures forall p | p in Flips(d, disk, x, y) ::
      IsInRange(p.x, p.y) && DiskAt(d, p.x, p.y) == Some(disk.Flipped())
    ensures DiskAt(d, x, y).Some? ==> Flips(d, disk, x, y) == [] && !Placeable(d, disk, x, y)
  {
    FlipsUpToSound(d, disk, x, y, |Directions|);
  }

  // ---------------------------------------------------------------------------
  // The list of legal moves

  /** Row-major position of a cell: y outer, x inner. */
  function RowMajor(p: Position): int
  {
    p.y * Width + p.x
  }

  /** The cell at row-major index i. */
  function CellAt(i: nat): Position
  {
    Position(i % Width, i / Width)
  }

  lemma CellAtIndex(i: nat)
    requires i < Width * Height
    ensures IsInRange(CellAt(i).x, CellAt(i).y) && RowMajor(CellAt(i)) == i
  {
  }

  lemma CellOfRowMajor(p: Position)
    requires IsInRange(p.x, p.y)
    ensures 0 <= RowMajor(p) < Width * Height && CellAt(RowMajor(p)) == p
  {
  }

  /** The legal cells among the first n in row-major order. */
  function MovesUpTo(d: Disks, side: Disk, n: nat): seq<Position>
  {
    if n == 0 then []
    else
      var p := CellAt(n - 1);
      MovesUpTo(d, side, n - 1) + (if Placeable(d, side, p.x, p.y) then [p] else [])
  }

  /** `validMoves(for:on:)`. */
  function MovesOf(d: Disks, side: Disk): seq<Position>
  {
    MovesUpTo(d, side, Width * Height)
  }

  lemma {:induction false} MovesUpToExact(d: Disks, side: Disk, n: nat)
    requires n <= Width * Height
    ensures forall p :: p in MovesUpTo(d, side, n) <==>
      IsInRange(p.x, p.y) && RowMajor(p) < n && Placeable(d, side, p.x, p.y)
    ensures forall i | 0 <= i < |MovesUpTo(d, side, n)| :: RowMajor(MovesUpTo(d, side, n)[i]) < n
    ensures forall i, j | 0 <= i < j < |MovesUpTo(d, side, n)| ::
      RowMajor(MovesUpTo(d, side, n)[i]) < RowMajor(MovesUpTo(d, side, n)[j])
  {
    if n > 0 {
      MovesUpToExact(d, side, n - 1);
      CellAtIndex(n - 1);
      forall p: Position | IsInRange(p.x, p.y) && RowMajor(p) == n - 1
        ensures p == CellAt(n - 1)
      {
        CellOfRowMajor(p);
      }
    }
  }

  /**
   * The legal moves are exactly the on-board cells where `canPlaceDisk` holds,
   * each once, in row-major order.
   */
  lemma MovesOfExact(d: Disks, side: Disk)
    ensures forall p :: p in MovesOf(d, side) <==> IsInRange(p.x, p.y) && Placeable(d, side, p.x, p.y)
    ensures forall i, j | 0 <= i < j < |MovesOf(d, side)| ::
      RowMajor(MovesOf(d, side)[i]) < RowMajor(MovesOf(d, side)[j])
  {
    MovesUpToExact(d, side, Width * Height);
    forall p: Position | IsInRange(p.x, p.y)
      ensures RowMajor(p) < Width * Height
    {
      CellOfRowMajor(p);
    }
  }

  /** A board with every cell occupied leaves neither colour a legal move. */
  lemma FullBoardHasNoMoves(d: Disks)
    requires forall x, y | IsInRange(x, y) :: DiskAt(d, x, y).Some?
    ensures MovesOf(d, Dark) == [] && MovesOf(d, Light) == []
  {
    forall side: Disk
      ensures MovesOf(d, side) == []
    {
      MovesOfExact(d, side);
      if MovesOf(d, side) != [] {
        var p := MovesOf(d, side)[0];
        FlipsSound(d, side, p.x, p.y);
      }
    }
  }

  lemma MovesUpToNext(d: Disks, side: Disk, x: int, y: int)
    requires IsInRange(x, y)
    ensures MovesUpTo(d, side, RowMajor(Position(x, y)) + 1) ==
      MovesUpTo(d, side, RowMajor(Position(x, y))) + (if Placeable(d, side, x, y) then [Position(x, y)] else [])
  {
    CellOfRowMajor(Position(x, y));
  }

  /** `validMoves`: y outer, x inner, one `canPlaceDisk` per cell. */
  method ValidMoves(side: Disk, board: Disks) returns (coordinates: seq<Position>)
    ensures coordinates == MovesOf(board, side)
  {
    coordinates := [];
    for y := 0 to Height
      invariant coordinates == MovesUpTo(board, side, RowMajor(Position(0, y)))
    {
      for x := 0 to Width
        invariant coordinates == MovesUpTo(board, side, RowMajor(Position(x, y)))
      {
        MovesUpToNext(board, side, x, y);
        var placeable := CanPlaceDisk(side, x, y, board);
        if placeable {
          coordinates := coordinates + [Position(x, y)];
        }
      }
      assert RowMajor(Position(Width, y)) == RowMajor(Position(0, y + 1));
    }
    assert RowMajor(Position(0, Height)) == Width * Height;
  }

  // ---------------------------------------------------------------------------
  // The corner position of the specification tests

  /** Light at (0, 0), dark at (1, 0), (0, 1) and (1, 1). */
  function CornerBoard(): Disks
  {
    map[Position(0, 0) := Light, Position(1, 0) := Dark, Position(0, 1) := Dark, Position(1, 1) := Dark]
  }

  /** Light at (2, 2) flips only (1, 1), along the diagonal to its own corner. */
  lemma CornerCentreMove()
    ensures Flips(CornerBoard(), Light, 2, 2) == [Position(1, 1)]
  {
    var d := CornerBoard();
    assert Ray(d, Light, 2, 2, 0) == [Position(1, 1)];
    assert Ray(d, Light, 2, 2, 1) == [];
    assert Ray(d, Light, 2, 2, 2) == [];
    assert Ray(d, Light, 2, 2, 3) == [];
    assert Ray(d, Light, 2, 2, 4) == [];
    assert Ray(d, Light, 2, 2, 5) == [];
    assert Ray(d, Light, 2, 2, 6) == [];
    assert Ray(d, Light, 2, 2, 7) == [];
  }

  /** Light at (2, 0) flips (1, 0), looking west. */
  lemma CornerTopEdgeMove()
    ensures Flips(CornerBoard(), Light, 2, 0) == [Position(1, 0)]
  {
    var d := CornerBoard();
    assert Ray(d, Light, 2, 0, 0) == [];
    assert Ray(d, Light, 2, 0, 1) == [];
    assert Ray(d, Light, 2, 0, 2) == [];
    assert Ray(d, Light, 2, 0, 3) == [];
    assert Ray(d, Light, 2, 0, 4) == [];
    assert Ray(d, Light, 2, 0, 5) == [];
    assert Ray(d, Light, 2, 0, 6) == [Position(1, 0)];
    assert Ray(d, Light, 2, 0, 7) == [];
  }

  /** Light at (0, 2) flips (0, 1), looking north. */
  lemma CornerLeftEdgeMove()
    ensures Flips(CornerBoard(), Light, 0, 2) == [Position(0, 1)]
  {
    var d := CornerBoard();
    assert Ray(d, Light, 0, 2, 0) == [];
    assert Ray(d, Light, 0, 2, 1) == [Position(0, 1)];
    assert Ray(d, Light, 0, 2, 2) == [];
    assert Ray(d, Light, 0, 2, 3) == [];
    assert Ray(d, Light, 0, 2, 4) == [];
    assert Ray(d, Light, 0, 2, 5) == [];
    assert Ray(d, Light, 0, 2, 6) == [];
    assert Ray(d, Light, 0, 2, 7) == [];
  }

  /** Dark flips nothing at (2, 0) or (0, 2): its own disks end every ray. */
  lemma CornerDarkBlocked()
    ensures Flips(CornerBoard(), Dark, 2, 0) == [] && Flips(CornerBoard(), Dark, 0, 2) == []
    ensures !Placeable(CornerBoard(), Dark, 0, 0)
  {
    var d := CornerBoard();
    assert Ray(d, Dark, 2, 0, 0) == [];
    assert Ray(d, Dark, 2, 0, 1) == [];
    assert Ray(d, Dark, 2, 0, 2) == [];
    assert Ray(d, Dark, 2, 0, 3) == [];
    assert Ray(d, Dark, 2, 0, 4) == [];
    assert Ray(d, Dark, 2, 0, 5) == [];
    assert Ray(d, Dark, 2, 0, 6) == [];
    assert Ray(d, Dark, 2, 0, 7) == [];
    assert Ray(d, Dark, 0, 2, 0) == [];
    assert Ray(d, Dark, 0, 2, 1) == [];
    assert Ray(d, Dark, 0, 2, 2) == [];
    assert Ray(d, Dark, 0, 2, 3) == [];
    assert Ray(d, Dark, 0, 2, 4) == [];
    assert Ray(d, Dark, 0, 2, 5) == [];
    assert Ray(d, Dark, 0, 2, 6) == [];
    assert Ray(d, Dark, 0, 2, 7) == [];
  }
}
