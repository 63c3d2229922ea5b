/** The four ship kinds and their fixed sizes (ShipType.java). */
module ShipTypes {

  datatype ShipType = Destroyer | Cruiser | Battleship | Carrier
  {
    /** getSize: the size given at declaration. */
    function Size(): (n: int)
      ensures 2 <= n <= 5
    {
      match this
      case Destroyer => 2
      case Cruiser => 3
      case Battleship => 4
      case Carrier => 5
    }

    /** Position in the enum's declaration order (Java's ordinal()). */
    function Ordinal(): (k: nat)
      ensures k < |DeclarationOrder| && DeclarationOrder[k] == this
    {
      match this
      case Destroyer => 0
      case Cruiser => 1
      case Battleship => 2
      case Carrier => 3
    }
  }

  /** The constants as ShipType.java declares them. */
  const DeclarationOrder: seq<ShipType> := [Destroyer, Cruiser, Battleship, Carrier]

  lemma DeclaredSizes()
    ensures Destroyer.Size() == 2 && Cruiser.Size() == 3
    ensures Battleship.Size() == 4 && Carrier.Size() == 5
  {
  }

  /** Sizes strictly increase in declaration order. */
  lemma SizesIncreaseWithOrdinal(a: ShipType, b: ShipType)
    requires a.Ordinal() < b.Ordinal()
    ensures a.Size() < b.Size()
  {
  }

  /** Hence no two ship kinds share a size. */
  lemma SizeDeterminesType(a: ShipType, b: ShipType)
    requires a.Size() == b.Size()
    ensures a == b
  {
  }
}
