// Field mappings shared by the Entity State, Entity State Update and Fire
// PDU structs: the choice between the double and the float location on the
// way out, the two locations filled from one record position on the way in,
// the orientation record, and the 11-character marking.
module PduFields {
  import opened DisBase
  import opened EntityTypes

  /** Rounding a double to the nearest float; floating point is not modelled. */
  type Rounding = real -> real

  /** Each component of a double vector cast to float. */
  function RoundVec(toFloat: Rounding, v: Vec3): Vec3
  {
    Vec3(toFloat(v.x), toFloat(v.y), toFloat(v.z))
  }

  /** The engine's default tolerance for IsNearlyEqual (SMALL_NUMBER, 1e-8). */
  const SmallNumber: real := 0.00000001

  function Abs(x: real): (r: real)
    ensures r >= 0.0 && (r == x || r == -x)
  {
    if x < 0.0 then -x else x
  }

  /** FMath::IsNearlyEqual with the default tolerance. */
  predicate NearlyEqual(a: real, b: real)
  {
    Abs(a - b) <= SmallNumber
  }

  /** Every component of the double location, cast to float, nearly equals the float location's. */
  predicate DoubleMatchesFloat(toFloat: Rounding, double: Vec3, float: Vec3)
  {
    NearlyEqual(toFloat(double.x), float.x) && NearlyEqual(toFloat(double.y), float.y) &&
    NearlyEqual(toFloat(double.z), float.z)
  }

  /**
   * The location ToOpenDIS writes into the record: the double location when
   * it still matches the float location, and otherwise the float location
   * (which Blueprint code may have edited), widened to double.
   */
  function OutgoingLocation(toFloat: Rounding, double: Vec3, float: Vec3): Vec3
  {
    if DoubleMatchesFloat(toFloat, double, float) then double else float
  }

  /** The two locations a struct holds. */
  datatype LocationPair = LocationPair(double: Vec3, float: Vec3)

  /** SetupFromOpenDIS fills both locations from the same record position. */
  function IncomingLocation(toFloat: Rounding, position: Vec3): LocationPair
  {
    LocationPair(position, RoundVec(toFloat, position))
  }

  /** A pair as reading leaves it: the float location is the double location cast to float. */
  predicate Consistent(toFloat: Rounding, pair: LocationPair)
  {
    pair.float == RoundVec(toFloat, pair.double)
  }

  /**
   * A consistent pair is sent as its double location, so it is read back
   * unchanged; and a record position is sent back unchanged after reading.
   */
  lemma LocationRoundTrip(toFloat: Rounding, pair: LocationPair, position: Vec3)
    requires Consistent(toFloat, pair)
    ensures OutgoingLocation(toFloat, pair.double, pair.float) == pair.double
    ensures IncomingLocation(toFloat, OutgoingLocation(toFloat, pair.double, pair.float)) == pair
    ensures OutgoingLocation(toFloat, position, IncomingLocation(toFloat, position).float) == position
  {
    assert Abs(0.0) == 0.0;
  }

  /**
   * When the float location has moved away from the double one, the double
   * location is lost: both come back as the float location.
   */
  lemma EditedFloatLocationWins(toFloat: Rounding, pair: LocationPair)
    requires RoundVec(toFloat, pair.float) == pair.float
    requires !DoubleMatchesFloat(toFloat, pair.double, pair.float)
    ensures IncomingLocation(toFloat, OutgoingLocation(toFloat, pair.double, pair.float)) == LocationPair(pair.float, pair.float)
    ensures pair.double != pair.float
  {
    FloatLocationMatchesItself(toFloat, pair.float);
  }

  /** A location already made of floats matches itself. */
  lemma FloatLocationMatchesItself(toFloat: Rounding, float: Vec3)
    requires RoundVec(toFloat, float) == float
    ensures DoubleMatchesFloat(toFloat, float, float)
  {
    assert Abs(0.0) == 0.0;
  }

  /** The DIS Orientation record: Euler angles psi, theta and phi. */
  datatype Orientation = Orientation(psi: real, theta: real, phi: real)

  /** SetupFromOpenDIS: Yaw from psi, Roll from phi, Pitch from theta. */
  function OrientationFromRecord(o: Orientation): (r: Rotator)
  {
    Rotator(pitch := o.theta, yaw := o.psi, roll := o.phi)
  }

  /** ToOpenDIS: psi from Yaw, theta from Pitch, phi from Roll. */
  function OrientationToRecord(r: Rotator): (o: Orientation)
  {
    Orientation(psi := r.yaw, theta := r.pitch, phi := r.roll)
  }

  /** The two orientation mappings are inverse bijections. */
  lemma OrientationMappingsAreInverse(r: Rotator, o: Orientation)
    ensures OrientationFromRecord(OrientationToRecord(r)) == r
    ensures OrientationToRecord(OrientationFromRecord(o)) == o
    ensures OrientationToRecord(r) == o <==> r == OrientationFromRecord(o)
  {
  }

  /** The DIS Marking record: a character set and up to 11 characters. */
  datatype MarkingRecord = MarkingRecord(characterSet: Octet, characters: string)

  const MarkingLength: nat := 11

  /** Character set 1 is ASCII. */
  const AsciiCharacterSet: Octet := 1

  /** FString::Left: the first n characters, or the whole string when it is shorter. */
  function Left(s: string, n: nat): (r: string)
  {
    if |s| <= n then s else s[..n]
  }

  /** The marking ToOpenDIS writes: character set 1 and the first 11 characters. */
  function MarkingToRecord(marking: string): (m: MarkingRecord)
  {
    MarkingRecord(AsciiCharacterSet, Left(marking, MarkingLength))
  }

  /**
   * The sent marking is the longest prefix of at most 11 characters, so a
   * marking survives sending exactly when it has at most 11 characters.
   */
  lemma MarkingIsTruncated(marking: string)
    ensures MarkingToRecord(marking).characterSet == 1
    ensures |MarkingToRecord(marking).characters| == if |marking| <= 11 then |marking| else 11
    ensures MarkingToRecord(marking).characters <= marking
    ensures MarkingToRecord(marking).characters == marking <==> |marking| <= 11
  {
  }
}
