/** A ship instance, which knows only its kind (Ship.java). */
module Ships {
  import opened ShipTypes

  datatype Ship = Ship(shipType: ShipType)
  {
    /** getSize is derived from the type, never stored. */
    function Size(): (n: int)
      ensures n == shipType.Size()
      ensures 2 <= n <= 5
    {
      shipType.Size()
    }

    /** The Lombok setter setType: the same ship with another kind. */
    function WithType(t: ShipType): (s: Ship)
      ensures s.shipType == t
    {
      this.(shipType := t)
    }
  }

  /** After setType, getSize reflects the new kind. */
  lemma SizeFollowsType(s: Ship, t: ShipType)
    ensures s.WithType(t).Size() == t.Size()
  {
  }
}
