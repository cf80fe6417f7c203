/**
 * `DiskPosition` of Game/DataTypes/DiskPosition.swift and
 * Reversi/DiskPosition.swift (the same declaration in both): a cell
 * coordinate compared by `<` on both coordinates at once.
 */
module DiskPositions {
  datatype DiskPosition = DiskPosition(x: int, y: int)

  /** `<`: both coordinates strictly smaller. */
  predicate Less(a: DiskPosition, b: DiskPosition)
  {
    a.x < b.x && a.y < b.y
  }

  /** Equality is componentwise on (x, y). */
  lemma EqualityIsComponentwise(a: DiskPosition, b: DiskPosition)
    ensures a == b <==> a.x == b.x && a.y == b.y
  {
  }

  /** `<` is a strict partial order: irreflexive, asymmetric and transitive. */
  lemma LessIsStrictPartialOrder()
    ensures forall a :: !Less(a, a)
    ensures forall a, b :: Less(a, b) ==> !Less(b, a)
    ensures forall a, b, c :: Less(a, b) && Less(b, c) ==> Less(a, c)
  {
  }

  /** `<` is not total: (0, 1) and (1, 0) differ, yet neither is less than the other. */
  lemma LessIsNotTotal()
    ensures DiskPosition(0, 1) != DiskPosition(1, 0)
    ensures !Less(DiskPosition(0, 1), DiskPosition(1, 0)) && !Less(DiskPosition(1, 0), DiskPosition(0, 1))
  {
  }
}
