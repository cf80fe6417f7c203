/**
 * Players: `PlayerType` and `GamePlayer` of ReversiCore/DataTypes/GamePlayer.swift
 * and Reversi/GamePlayer.swift (the two files declare the same types). The
 * `Player` enumeration of Reversi/Player.swift has the same cases and raw
 * values, so `PlayerType` stands for it too.
 */
module GamePlayers {
  import opened Wrappers
  import opened DiskColors

  datatype PlayerType = Manual | Computer {
    /** The raw value the save format writes: manual is 0, computer is 1. */
    function RawValue(): (n: nat)
      ensures n < 2
      ensures n == 0 <==> this == Manual
    {
      if Manual? then 0 else 1
    }
  }

  /** `PlayerType(rawValue:)`: fails for every value other than 0 and 1. */
  function PlayerTypeOfRawValue(n: int): (r: Option<PlayerType>)
    ensures r.Some? <==> n == 0 || n == 1
    ensures r.Some? ==> r.value.RawValue() == n
  {
    if n == 0 then Some(Manual) else if n == 1 then Some(Computer) else None
  }

  lemma RawValueRoundTrip(t: PlayerType)
    ensures PlayerTypeOfRawValue(t.RawValue()) == Some(t)
  {
  }

  /** A player: its type can change, its side cannot. */
  datatype GamePlayer = GamePlayer(playerType: PlayerType, side: Disk) {
    /** `setType`: replaces the type and keeps the side. */
    function SetType(t: PlayerType): (r: GamePlayer)
      ensures r.playerType == t && r.side == side
      ensures r == this <==> playerType == t
    {
      this.(playerType := t)
    }
  }

  /** Equality and hashing compare both the type and the side. */
  lemma GamePlayerEquality(a: GamePlayer, b: GamePlayer)
    ensures a == b <==> a.playerType == b.playerType && a.side == b.side
  {
  }
}
