/**
 * Pipe directions as the codec sees them: one of the six facings or none,
 * with the ordinal numbering the direction byte carries.
 * `DirectionUtils` is not part of this model; `Ordinal` and `FromOrdinal` are
 * its `ordinal` and `get`, taken as mutually inverse on 0..6.
 */
module Directions {
  import opened Wrappers

  /** The six facings, in the order of their ordinals 0..5. */
  datatype Facing = Down | Up | North | South | West | East

  /** A pipe item's input or output side; `None` stands for Java's `null`. */
  type Direction = Option<Facing>

  /** `DirectionUtils.ordinal`: 0..5 for a facing, 6 for none. */
  function Ordinal(d: Direction): (k: nat)
    ensures k <= 6
    ensures k == 6 <==> d.None?
  {
    match d
    case None => 6
    case Some(f) =>
      match f
      case Down => 0
      case Up => 1
      case North => 2
      case South => 3
      case West => 4
      case East => 5
  }

  /**
   * `DirectionUtils.get` on the three bits the decoder extracts.
   * 7 cannot come from the encoder; it is read as none.
   */
  function FromOrdinal(k: nat): (d: Direction)
    requires k < 8
    ensures d.None? <==> k >= 6
  {
    match k
    case 0 => Some(Down)
    case 1 => Some(Up)
    case 2 => Some(North)
    case 3 => Some(South)
    case 4 => Some(West)
    case 5 => Some(East)
    case _ => None
  }

  /** `get` undoes `ordinal`. */
  lemma FromOrdinalOrdinal(d: Direction)
    ensures FromOrdinal(Ordinal(d)) == d
  {
  }

  /** `ordinal` undoes `get` on 0..6. */
  lemma OrdinalFromOrdinal(k: nat)
    requires k <= 6
    ensures Ordinal(FromOrdinal(k)) == k
  {
  }
}
