/**
 * The two disk colours. `Disk` itself lives outside the modelled files; its
 * `flipped`, `index`, `sides` and `init(index:)` are taken from the extension
 * in Reversi/GameViewController.swift.
 */
module DiskColors {
  import opened Wrappers

  datatype Disk = Dark | Light {
    /** The opposite colour. */
    function Flipped(): (r: Disk)
      ensures r != this
    {
      if Dark? then Light else Dark
    }

    /** dark is 0, light is 1; the save format writes this digit. */
    function Index(): (i: nat)
      ensures i < 2
      ensures i == 0 <==> this == Dark
    {
      if Dark? then 0 else 1
    }
  }

  /** `Disk.sides`: dark first, then light. */
  const Sides: seq<Disk> := [Dark, Light]

  /**
   * `Disk(index:)` searches `Disk.sides` for the colour with that index and
   * stops the program (preconditionFailure) for any other index; `None`
   * stands for that failure.
   */
  function DiskOfIndex(index: int): (r: Option<Disk>)
    ensures r.Some? <==> 0 <= index < |Sides|
    ensures r.Some? ==> r.value.Index() == index && r.value == Sides[index]
  {
    if index == 0 then Some(Dark) else if index == 1 then Some(Light) else None
  }

  lemma FlippedIsInvolution(d: Disk)
    ensures d.Flipped().Flipped() == d
    ensures d.Flipped().Index() == 1 - d.Index()
  {
  }

  lemma IndexRoundTrip(d: Disk)
    ensures DiskOfIndex(d.Index()) == Some(d)
    ensures Sides[d.Index()] == d
  {
  }
}
