/**
 * The 8x8 board of Reversi/Board.swift: a map from positions to disk colours,
 * with the dimensions and range test of Reversi/ReversiSpecification.swift.
 *
 * The board's contents are the value `Disks`; the functions below are the
 * queries of the source (`diskAt`, `countDisks`, `sideWithMoreDisks`) and the
 * value form of its updates. The class `Board` is the object the source
 * updates in place through `reset` and `setDisk`.
 */
module Boards {
  import opened Wrappers
  import opened DiskColors

  const Width: int := 8
  const Height: int := 8

  /** `Board.Position`. */
  datatype Position = Position(x: int, y: int)

  /** `isInRange`: x in 0..<Width and y in 0..<Height. */
  predicate IsInRange(x: int, y: int)
  {
    0 <= x < Width && 0 <= y < Height
  }

  /** The contents of a board. */
  type Disks = map<Position, Disk>

  /** Only `setDisk` writes the map, and it only writes in-range keys. */
  ghost predicate WellFormed(d: Disks)
  {
    forall p | p in d :: IsInRange(p.x, p.y)
  }

  /**
   * `diskAt`: the colour stored at (x, y), or None for an empty cell. The
   * range test only makes explicit what `WellFormed` guarantees: no disk is
   * ever stored off the board (see `DiskAtStored`).
   */
  function DiskAt(d: Disks, x: int, y: int): Option<Disk>
  {
    if IsInRange(x, y) && Position(x, y) in d then Some(d[Position(x, y)]) else None
  }

  lemma DiskAtStored(d: Disks, x: int, y: int)
    requires WellFormed(d)
    ensures DiskAt(d, x, y) == if Position(x, y) in d then Some(d[Position(x, y)]) else None
    ensures !IsInRange(x, y) ==> DiskAt(d, x, y) == None
  {
  }

  /** Two well-formed boards that agree on every in-range cell are equal. */
  lemma {:induction false} BoardsEqual(d1: Disks, d2: Disks)
    requires WellFormed(d1) && WellFormed(d2)
    requires forall x, y | IsInRange(x, y) :: DiskAt(d1, x, y) == DiskAt(d2, x, y)
    ensures d1 == d2
  {
    forall p | p in d1
      ensures p in d2 && d2[p] == d1[p]
    {
      assert DiskAt(d1, p.x, p.y) == DiskAt(d2, p.x, p.y);
    }
    forall p | p in d2
      ensures p in d1
    {
      assert DiskAt(d1, p.x, p.y) == DiskAt(d2, p.x, p.y);
    }
  }

  /** The value form of `setDisk`: an off-board write changes nothing. */
  function WithDisk(d: Disks, disk: Disk, x: int, y: int): Disks
  {
    if IsInRange(x, y) then d[Position(x, y) := disk] else d
  }

  /** `setDisk` on a cell changes that cell if it is on the board, and no other. */
  lemma WithDiskCells(d: Disks, disk: Disk, x: int, y: int)
    ensures forall qx, qy ::
              DiskAt(WithDisk(d, disk, x, y), qx, qy) ==
              (if qx == x && qy == y && IsInRange(x, y) then Some(disk) else DiskAt(d, qx, qy))
    ensures WellFormed(d) ==> WellFormed(WithDisk(d, disk, x, y))
  {
  }

  /** `setDisks`: `setDisk` applied to each position in order. */
  function WithDisks(d: Disks, disk: Disk, ps: seq<Position>): Disks
    decreases |ps|
  {
    if ps == [] then d
    else
      var last := ps[|ps| - 1];
      WithDisk(WithDisks(d, disk, ps[..|ps| - 1]), disk, last.x, last.y)
  }

  /** Every listed in-range cell ends up holding `disk`; every other cell is untouched. */
  lemma {:induction false} WithDisksCells(d: Disks, disk: Disk, ps: seq<Position>, x: int, y: int)
    ensures DiskAt(WithDisks(d, disk, ps), x, y) ==
      if Position(x, y) in ps && IsInRange(x, y) then Some(disk) else DiskAt(d, x, y)
    decreases |ps|
  {
    if ps != [] {
      var init := ps[..|ps| - 1];
      WithDisksCells(d, disk, init, x, y);
      WithDiskCells(WithDisks(d, disk, init), disk, ps[|ps| - 1].x, ps[|ps| - 1].y);
      assert ps == init + [ps[|ps| - 1]];
    }
  }

  /** `setDisks` keeps every key in range. */
  lemma {:induction false} WithDisksWellFormed(d: Disks, disk: Disk, ps: seq<Position>)
    requires WellFormed(d)
    ensures WellFormed(WithDisks(d, disk, ps))
    decreases |ps|
  {
    if ps != [] {
      WithDisksWellFormed(d, disk, ps[..|ps| - 1]);
      WithDiskCells(WithDisks(d, disk, ps[..|ps| - 1]), disk, ps[|ps| - 1].x, ps[|ps| - 1].y);
    }
  }

  /** Rewriting cells that already hold a disk adds no disk to the board. */
  lemma {:induction false} WithDisksSameKeys(d: Disks, disk: Disk, ps: seq<Position>)
    requires forall i | 0 <= i < |ps| :: ps[i] in d
    ensures WithDisks(d, disk, ps).Keys == d.Keys
    decreases |ps|
  {
    if ps != [] {
      WithDisksSameKeys(d, disk, ps[..|ps| - 1]);
    }
  }

  /** `setDisks`, on the board's contents: one `setDisk` per position. */
  method SetDisks(board: Disks, disk: Disk, positions: seq<Position>) returns (r: Disks)
    ensures r == WithDisks(board, disk, positions)
  {
    r := board;
    for i := 0 to |positions|
      invariant r == WithDisks(board, disk, positions[..i])
    {
      assert positions[..i + 1][..i] == positions[..i];
      r := WithDisk(r, disk, positions[i].x, positions[i].y);
    }
    assert positions[..|positions|] == positions;
  }

  /** The starting position written by `reset`. */
  function InitialDisks(): Disks
  {
    map[Position(3, 3) := Light, Position(4, 3) := Dark, Position(3, 4) := Dark, Position(4, 4) := Light]
  }

  /** `countDisks(of:)`: the number of cells holding `side`. */
  function CountDisks(d: Disks, side: Disk): nat
  {
    |set p | p in d && d[p] == side|
  }

  /**
   * `sideWithMoreDisks`: None exactly on a tie, otherwise the colour with
   * strictly more disks.
   */
  function SideWithMoreDisks(d: Disks): (r: Option<Disk>)
    ensures r.None? <==> CountDisks(d, Dark) == CountDisks(d, Light)
    ensures forall side :: r == Some(side) <==> CountDisks(d, side) > CountDisks(d, side.Flipped())
  {
    var darkCount := CountDisks(d, Dark);
    var lightCount := CountDisks(d, Light);
    if darkCount == lightCount then None
    else if darkCount > lightCount then Some(Dark) else Some(Light)
  }

  /** The starting position holds two disks of each colour at the centre. */
  lemma InitialLayout()
    ensures WellFormed(InitialDisks()) && |InitialDisks()| == 4
    ensures DiskAt(InitialDisks(), 3, 3) == Some(Light) && DiskAt(InitialDisks(), 4, 3) == Some(Dark)
    ensures DiskAt(InitialDisks(), 3, 4) == Some(Dark) && DiskAt(InitialDisks(), 4, 4) == Some(Light)
    ensures CountDisks(InitialDisks(), Dark) == 2 && CountDisks(InitialDisks(), Light) == 2
    ensures SideWithMoreDisks(InitialDisks()) == None
  {
    var d := InitialDisks();
    assert (set p | p in d && d[p] == Dark) == {Position(4, 3), Position(3, 4)};
    assert (set p | p in d && d[p] == Light) == {Position(3, 3), Position(4, 4)};
    assert d.Keys == {Position(3, 3), Position(4, 3), Position(3, 4), Position(4, 4)};
  }

  /** A fresh board holds nothing. */
  lemma EmptyBoardCounts()
    ensures CountDisks(map[], Dark) == 0 && CountDisks(map[], Light) == 0
    ensures SideWithMoreDisks(map[]) == None
  {
    var d: Disks := map[];
    assert (set p | p in d && d[p] == Dark) == {};
  }

  /** `Board`: the disks map, written only through `reset` and `setDisk`. */
  class Board {
    var disks: Disks

    ghost predicate Valid()
      reads this
    {
      WellFormed(disks)
    }

    constructor()
      ensures Valid() && disks == map[]
    {
      disks := map[];
    }

    /** Clears every cell, then places the four starting disks. */
    method Reset()
      modifies this
      ensures Valid() && disks == InitialDisks()
    {
      disks := map[];
      var placed := SetDisk(Light, Width / 2 - 1, Height / 2 - 1);
      placed := SetDisk(Dark, Width / 2, Height / 2 - 1);
      placed := SetDisk(Dark, Width / 2 - 1, Height / 2);
      placed := SetDisk(Light, Width / 2, Height / 2);
    }

    /**
     * Stores `disk` at (x, y) when that cell is on the board; `placed` is the
     * value the source hands to its completion handler.
     */
    method SetDisk(disk: Disk, x: int, y: int) returns (placed: bool)
      requires Valid()
      modifies this
      ensures Valid()
      ensures placed == IsInRange(x, y)
      ensures disks == WithDisk(old(disks), disk, x, y)
    {
      if !IsInRange(x, y) {
        placed := false;
        return;
      }
      disks := disks[Position(x, y) := disk];
      placed := true;
    }
  }
}
