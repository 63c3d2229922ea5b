/** A grid cell, 0-based (Coordinate.java). A value object: equality and hashing by value. */
module Coordinates {

  datatype Coordinate = Coordinate(x: int, y: int)

  /** The argument of Java's equals(Object): null, a Coordinate, or an object of another class. */
  datatype JavaObject = Null | CoordinateObject(coordinate: Coordinate) | OtherObject(classTag: nat)

  /** Coordinate.equals: true for a Coordinate with the same x and y, false for anything else. */
  function Equals(c: Coordinate, o: JavaObject): (r: bool)
    ensures r ==> o.CoordinateObject?
  {
    match o
    case CoordinateObject(other) => c.x == other.x && c.y == other.y
    case _ => false
  }

  /** Java `int` arithmetic: two's-complement wrap-around to 32 bits. */
  function WrapInt32(v: int): (r: int)
    ensures -0x8000_0000 <= r < 0x8000_0000
    ensures (r - v) % 0x1_0000_0000 == 0
  {
    (v + 0x8000_0000) % 0x1_0000_0000 - 0x8000_0000
  }

  /** Coordinate.hashCode: 31 * x + y, evaluated in Java int arithmetic. */
  function HashCode(c: Coordinate): (h: int)
    ensures -0x8000_0000 <= h < 0x8000_0000
  {
    WrapInt32(31 * c.x + c.y)
  }

  /** equals on a Coordinate argument is exactly Dafny's structural equality. */
  lemma EqualsIsValueEquality(a: Coordinate, b: Coordinate)
    ensures Equals(a, CoordinateObject(b)) <==> a == b
  {
  }

  lemma EqualsReflexive(c: Coordinate)
    ensures Equals(c, CoordinateObject(c))
  {
  }

  lemma EqualsSymmetric(a: Coordinate, b: Coordinate)
    ensures Equals(a, CoordinateObject(b)) == Equals(b, CoordinateObject(a))
  {
  }

  lemma EqualsTransitive(a: Coordinate, b: Coordinate, c: Coordinate)
    requires Equals(a, CoordinateObject(b)) && Equals(b, CoordinateObject(c))
    ensures Equals(a, CoordinateObject(c))
  {
  }

  /** No Coordinate equals null or an object of another class. */
  lemma NeverEqualsNonCoordinate(c: Coordinate, o: JavaObject)
    requires !o.CoordinateObject?
    ensures !Equals(c, o)
  {
  }

  /** hashCode is consistent with equals. */
  lemma HashConsistentWithEquals(a: Coordinate, b: Coordinate)
    requires Equals(a, CoordinateObject(b))
    ensures HashCode(a) == HashCode(b)
  {
  }
}
