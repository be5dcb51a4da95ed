// The 15 Other Parameters bytes of a dead-reckoning record, as
// UDeadReckoning_BPFL forms and reads them: byte 0 says what follows (1 for
// local Euler angles, 2 for a quaternion), bytes 1-2 hold padding or a
// 16-bit approximation of the quaternion's scalar part, and bytes 3-14 hold
// three floats in network (big-endian) byte order.
//
// Floating point is not modelled: a float's four bytes and the trigonometry
// that produces the angles are parameters (`FloatLayout`, `FrameGeometry`),
// and the machine's byte order is a boolean.
module OtherParameters {
  import opened DisBase
  import opened EntityTypes
  import opened Structs

  /** The four bytes of a float. */
  type FloatBytes = s: seq<Octet> | |s| == 4 witness [0, 0, 0, 0]

  /**
   * A float's IEEE 754 image, most significant byte first, and the float an
   * image denotes. `ExactLayout` states that decoding an encoded float gives
   * it back.
   */
  datatype FloatLayout = FloatLayout(bigEndian: real -> FloatBytes, fromBigEndian: FloatBytes -> real)

  ghost predicate ExactLayout(l: FloatLayout)
  {
    forall x :: l.fromBigEndian(l.bigEndian(x)) == x
  }

  /** The bytes of `x` as they sit in memory: reversed on a little-endian machine. */
  function MemoryImage(l: FloatLayout, x: real, littleEndian: bool): (b: FloatBytes)
    ensures littleEndian ==> Reversed(b) == l.bigEndian(x)
    ensures !littleEndian ==> b == l.bigEndian(x)
  {
    ReversedTwice(l.bigEndian(x));
    if littleEndian then Reversed(l.bigEndian(x)) else l.bigEndian(x)
  }

  /** The float memcpy makes of four bytes in memory. */
  function FloatFromMemory(l: FloatLayout, memory: FloatBytes, littleEndian: bool): real
  {
    l.fromBigEndian(if littleEndian then Reversed(memory) else memory)
  }

  lemma ReversedTwice<T>(s: seq<T>)
    ensures Reversed(Reversed(s)) == s
  {
    assert forall k :: 0 <= k < |s| ==> Reversed(Reversed(s))[k] == s[k];
  }

  /** Heading, pitch and roll relative to the local horizon, in radians. */
  datatype HeadingPitchRoll = HeadingPitchRoll(heading: real, pitch: real, roll: real)

  /** FQuat's order: the vector part, then the scalar part `w` (DIS's qu0). */
  datatype Quaternion = Quaternion(x: real, y: real, z: real, w: real)

  /**
   * The geometry FormOtherParameters calls on: the local heading, pitch and
   * roll of an orientation (psi, theta, phi in radians) at the latitude and
   * longitude of an ECEF location, and the four quaternion terms built from
   * the half-angle sines and cosines of psi, theta and phi.
   */
  datatype FrameGeometry = FrameGeometry(
    localAngles: (Rotator, Vec3) -> HeadingPitchRoll,
    quaternion: Rotator -> Quaternion)

  /** Static, FPW, FVW, FPB and FVB carry local Euler angles. */
  predicate EulerAlgorithm(algorithm: Octet)
  {
    algorithm == DrStatic || algorithm == DrFPW || algorithm == DrFVW || algorithm == DrFPB || algorithm == DrFVB
  }

  /** RPW, RVW, RPB and RVB carry a quaternion. */
  predicate QuaternionAlgorithm(algorithm: Octet)
  {
    algorithm == DrRPW || algorithm == DrRVW || algorithm == DrRPB || algorithm == DrRVB
  }

  /** The parameter type byte: 1 for Euler angles, 2 for a quaternion. */
  const EulerAnglesType: Octet := 1
  const QuaternionType: Octet := 2

  /** FMath::TruncToInt: rounds toward zero. */
  function Trunc(x: real): (r: int)
    ensures x >= 0.0 ==> r as real <= x < r as real + 1.0
    ensures x < 0.0 ==> r as real - 1.0 < x <= r as real
  {
    if x >= 0.0 then x.Floor else -((-x).Floor)
  }

  /** A quaternion with a negative scalar part is replaced by its negation, which is the same rotation. */
  function Canonical(q: Quaternion): (c: Quaternion)
    ensures c.w >= 0.0
    ensures c == q || c == Quaternion(-q.x, -q.y, -q.z, -q.w)
  {
    if q.w < 0.0 then Quaternion(-q.x, -q.y, -q.z, -q.w) else q
  }

  /** The 16-bit qu0 approximation: 65535 from 1 upwards, otherwise the scalar part times 65536 truncated, stored in 16 bits. */
  function StoredQu0(w: real): UShort
  {
    (if w >= 1.0 then 65535 else Trunc(w * 65536.0)) % 0x1_0000
  }

  /**
   * The quaternion with its sign flipped when the scalar part is negative,
   * and the scalar part's 16-bit approximation.
   */
  method CanonicalParts(q: Quaternion) returns (qux: real, quy: real, quz: real, finalQu0: UShort)
    ensures Quaternion(qux, quy, quz, Canonical(q).w) == Canonical(q)
    ensures finalQu0 == StoredQu0(Canonical(q).w)
  {
    var qu0;
    qu0, qux, quy, quz := q.w, q.x, q.y, q.z;
    if qu0 < 0.0 {
      qu0 := qu0 * -1.0;
      qux := qux * -1.0;
      quy := quy * -1.0;
      quz := quz * -1.0;
    }
    finalQu0 := (if qu0 >= 1.0 then 65535 else Trunc(qu0 * 65536.0)) % 0x1_0000;
  }

  /** The fifteen bytes FormOtherParameters returns, on any machine. */
  function OtherParametersFor(algorithm: Octet, psiThetaPhi: Rotator, ecef: Vec3, g: FrameGeometry, l: FloatLayout)
    : (s: seq<Octet>)
    ensures |s| == OtherParametersLength
  {
    if EulerAlgorithm(algorithm) then
      var hpr := g.localAngles(psiThetaPhi, ecef);
      [EulerAnglesType, 0, 0] + Words(l, hpr.heading, hpr.pitch, hpr.roll)
    else if QuaternionAlgorithm(algorithm) then
      var q := Canonical(g.quaternion(psiThetaPhi));
      var qu0 := StoredQu0(q.w);
      [QuaternionType, qu0 / 0x100, qu0 % 0x100] + Words(l, q.x, q.y, q.z)
    else
      seq(OtherParametersLength, i => 0)
  }

  /** Three floats, each most significant byte first. */
  function Words(l: FloatLayout, a: real, b: real, c: real): (s: seq<Octet>)
    ensures |s| == 12
  {
    l.bigEndian(a) + l.bigEndian(b) + l.bigEndian(c)
  }

  /** memcpy of a float into a four-byte buffer. */
  method CopyToBuffer(l: FloatLayout, x: real, littleEndian: bool) returns (buffer: array<Octet>)
    ensures fresh(buffer) && buffer[..] == MemoryImage(l, x, littleEndian)
  {
    var image := MemoryImage(l, x, littleEndian);
    buffer := new Octet[4](i requires 0 <= i < 4 => image[i]);
    assert buffer[..] == image;
  }

  /** The twelve assignments that copy three four-byte buffers into bytes 3-14. */
  method PlaceWords(other: array<Octet>, first: array<Octet>, second: array<Octet>, third: array<Octet>)
    requires other.Length == OtherParametersLength && first.Length == second.Length == third.Length == 4
    requires other != first && other != second && other != third
    modifies other
    ensures other[..3] == old(other[..3])
    ensures other[3..7] == old(first[..]) && other[7..11] == old(second[..]) && other[11..] == old(third[..])
  {
    other[3], other[4], other[5], other[6] := first[0], first[1], first[2], first[3];
    other[7], other[8], other[9], other[10] := second[0], second[1], second[2], second[3];
    other[11], other[12], other[13], other[14] := third[0], third[1], third[2], third[3];
  }

  lemma Assemble(s: seq<Octet>, head: seq<Octet>, a: seq<Octet>, b: seq<Octet>, c: seq<Octet>)
    requires |s| == OtherParametersLength && s[..3] == head
    requires s[3..7] == a && s[7..11] == b && s[11..] == c
    ensures s == head + (a + b + c)
  {
    assert s == s[..3] + s[3..7] + s[7..11] + s[11..];
  }

  /** A buffer that held a float's memory image, reversed on a little-endian machine, holds its big-endian image. */
  lemma InNetworkOrder(l: FloatLayout, x: real, buffer: array<Octet>, littleEndian: bool)
    requires littleEndian ==> buffer[..] == Reversed(MemoryImage(l, x, littleEndian))
    requires !littleEndian ==> buffer[..] == MemoryImage(l, x, littleEndian)
    ensures buffer[..] == l.bigEndian(x)
  {
  }

  /** Three floats copied out of memory into buffers, each buffer reversed on a little-endian machine. */
  method CopyInNetworkOrder(l: FloatLayout, a: real, b: real, c: real, littleEndian: bool)
    returns (first: array<Octet>, second: array<Octet>, third: array<Octet>)
    ensures fresh(first) && fresh(second) && fresh(third)
    ensures first[..] + second[..] + third[..] == Words(l, a, b, c)
    ensures first.Length == second.Length == third.Length == 4
  {
    first := CopyToBuffer(l, a, littleEndian);
    second := CopyToBuffer(l, b, littleEndian);
    third := CopyToBuffer(l, c, littleEndian);
    if littleEndian {
      ReverseInPlace(first);
      ReverseInPlace(second);
      ReverseInPlace(third);
    }
    InNetworkOrder(l, a, first, littleEndian);
    InNetworkOrder(l, b, second, littleEndian);
    InNetworkOrder(l, c, third, littleEndian);
  }

  /**
   * FormOtherParameters: a zeroed 15-byte array, the type byte and qu0 (or
   * padding), three floats copied out of memory and reversed on a
   * little-endian machine, then copied byte by byte into place. Whatever the
   * machine's byte order, the result is the big-endian layout.
   */
  method FormOtherParameters(algorithm: Octet, psiThetaPhi: Rotator, ecef: Vec3, g: FrameGeometry, l: FloatLayout,
                             littleEndian: bool)
    returns (parameters: seq<Octet>)
    ensures parameters == OtherParametersFor(algorithm, psiThetaPhi, ecef, g, l)
  {
    var other := new Octet[15](i => 0);
    var first, second, third;
    ghost var head: seq<Octet>, words: seq<Octet>;
    if EulerAlgorithm(algorithm) {
      other[0] := EulerAnglesType;
      other[1] := 0;
      other[2] := 0;
      var hpr := g.localAngles(psiThetaPhi, ecef);
      first, second, third := CopyInNetworkOrder(l, hpr.heading, hpr.pitch, hpr.roll, littleEndian);
      head, words := [EulerAnglesType, 0, 0], Words(l, hpr.heading, hpr.pitch, hpr.roll);
      assert other[0] == EulerAnglesType && other[1] == 0 && other[2] == 0;
      assert other[..3] == head;
    } else if QuaternionAlgorithm(algorithm) {
      other[0] := QuaternionType;
      var qux, quy, quz, finalQu0 := CanonicalParts(g.quaternion(psiThetaPhi));
      first, second, third := CopyInNetworkOrder(l, qux, quy, quz, littleEndian);
      other[1] := finalQu0 / 0x100;
      other[2] := finalQu0 % 0x100;
      head, words := [QuaternionType, finalQu0 / 0x100, finalQu0 % 0x100], Words(l, qux, quy, quz);
      assert other[0] == QuaternionType;
      assert other[..3] == head;
    } else {
      assert other[..] == seq(OtherParametersLength, i => 0);
      return other[..];
    }
    assert head + words == OtherParametersFor(algorithm, psiThetaPhi, ecef, g, l);
    ghost var a, b, c := first[..], second[..], third[..];
    PlaceWords(other, first, second, third);
    parameters := other[..];
    Assemble(parameters, head, a, b, c);
  }

  /** Four received bytes, reversed on a little-endian machine, then copied into a float. */
  function WireFloat(l: FloatLayout, wire: FloatBytes, littleEndian: bool): real
  {
    FloatFromMemory(l, if littleEndian then Reversed(wire) else wire, littleEndian)
  }

  /** GetLocalEulerAngles: fails on fewer than 15 bytes or a type other than 1; bytes 3-6 are the yaw. */
  function LocalEulerAngles(other: seq<Octet>, l: FloatLayout, littleEndian: bool): (r: Option<Rotator>)
    ensures r.Some? <==> |other| >= OtherParametersLength && other[0] == EulerAnglesType
  {
    if |other| < OtherParametersLength || other[0] != EulerAnglesType then None
    else
      Some(Rotator(pitch := WireFloat(l, other[7..11], littleEndian), yaw := WireFloat(l, other[3..7], littleEndian),
                   roll := WireFloat(l, other[11..15], littleEndian)))
  }

  /** The scalar part of a unit quaternion with the given vector part: the square root of one minus its squared length. */
  function ScalarPart(x: real, y: real, z: real, sqrt: real -> real): real
  {
    sqrt(1.0 - (x * x + y * y + z * z))
  }

  /**
   * GetLocalQuaternionAngles: fails on fewer than 15 bytes or a type other
   * than 2; the scalar part is recomputed from the vector part (`sqrt` is
   * FMath::Sqrt), and bytes 1-2 are not used.
   */
  function LocalQuaternion(other: seq<Octet>, l: FloatLayout, littleEndian: bool, sqrt: real -> real)
    : (r: Option<Quaternion>)
    ensures r.Some? <==> |other| >= OtherParametersLength && other[0] == QuaternionType
    ensures r.Some? ==> r.value.w == ScalarPart(r.value.x, r.value.y, r.value.z, sqrt)
  {
    if |other| < OtherParametersLength || other[0] != QuaternionType then None
    else
      var qx, qy, qz := WireFloat(l, other[3..7], littleEndian), WireFloat(l, other[7..11], littleEndian),
                        WireFloat(l, other[11..15], littleEndian);
      Some(Quaternion(qx, qy, qz, ScalarPart(qx, qy, qz, sqrt)))
  }

  /** The float four received bytes stand for, whatever the machine's byte order. */
  lemma WireWordIsBigEndian(l: FloatLayout, wire: FloatBytes, littleEndian: bool)
    ensures WireFloat(l, wire, littleEndian) == l.fromBigEndian(wire)
  {
    ReversedTwice(wire);
  }

  /** Both readers give the same answer on little- and big-endian machines. */
  lemma {:induction false} ReadersIgnoreMachineOrder(other: seq<Octet>, l: FloatLayout, sqrt: real -> real)
    ensures LocalEulerAngles(other, l, true) == LocalEulerAngles(other, l, false)
    ensures LocalQuaternion(other, l, true, sqrt) == LocalQuaternion(other, l, false, sqrt)
  {
    if |other| >= OtherParametersLength {
      WireWordIsBigEndian(l, other[3..7], true);
      WireWordIsBigEndian(l, other[3..7], false);
      WireWordIsBigEndian(l, other[7..11], true);
      WireWordIsBigEndian(l, other[7..11], false);
      WireWordIsBigEndian(l, other[11..15], true);
      WireWordIsBigEndian(l, other[11..15], false);
    }
  }

  /**
   * The type byte tells the groups apart: 1 exactly for the Euler-angle
   * algorithms (with two zero padding bytes), 2 exactly for the quaternion
   * ones, and fifteen zero bytes for any other algorithm.
   */
  lemma OtherParametersLayout(algorithm: Octet, psiThetaPhi: Rotator, ecef: Vec3, g: FrameGeometry, l: FloatLayout)
    ensures var s := OtherParametersFor(algorithm, psiThetaPhi, ecef, g, l);
            (s[0] == EulerAnglesType <==> EulerAlgorithm(algorithm)) &&
            (s[0] == QuaternionType <==> QuaternionAlgorithm(algorithm)) &&
            (EulerAlgorithm(algorithm) ==> s[1] == 0 && s[2] == 0) &&
            (!EulerAlgorithm(algorithm) && !QuaternionAlgorithm(algorithm) ==> forall i :: 0 <= i < |s| ==> s[i] == 0)
  {
  }

  /**
   * Bytes 1-2 hold qu0 most significant byte first: 65535 from 1 upwards,
   * otherwise the largest multiple of 1/65536 not above it.
   */
  lemma StoredQu0Approximates(w: real)
    requires w >= 0.0
    ensures w >= 1.0 ==> StoredQu0(w) == 65535
    ensures w < 1.0 ==> StoredQu0(w) as real <= w * 65536.0 < StoredQu0(w) as real + 1.0
  {
    if w < 1.0 {
      var t := Trunc(w * 65536.0);
      assert 0 <= t < 65536;
    }
  }

  /**
   * Euler angles written for an Euler-angle algorithm are read back as
   * (pitch, yaw = heading, roll); the quaternion reader refuses them.
   */
  lemma EulerAnglesRoundTrip(algorithm: Octet, psiThetaPhi: Rotator, ecef: Vec3, g: FrameGeometry, l: FloatLayout,
                             littleEndian: bool, sqrt: real -> real)
    requires ExactLayout(l) && EulerAlgorithm(algorithm)
    ensures var hpr := g.localAngles(psiThetaPhi, ecef);
            var s := OtherParametersFor(algorithm, psiThetaPhi, ecef, g, l);
            LocalEulerAngles(s, l, littleEndian) == Some(Rotator(hpr.pitch, hpr.heading, hpr.roll)) &&
            LocalQuaternion(s, l, littleEndian, sqrt) == None
  {
    var hpr := g.localAngles(psiThetaPhi, ecef);
    var s := OtherParametersFor(algorithm, psiThetaPhi, ecef, g, l);
    assert s[3..7] == l.bigEndian(hpr.heading);
    assert s[7..11] == l.bigEndian(hpr.pitch);
    assert s[11..15] == l.bigEndian(hpr.roll);
    ReadersIgnoreMachineOrder(s, l, sqrt);
  }

  /**
   * A quaternion written for a quaternion algorithm is read back with its
   * sign made canonical and its scalar part recomputed from the vector part;
   * bytes 1-2 carry the 16-bit qu0. The Euler-angle reader refuses it.
   */
  lemma QuaternionRoundTrip(algorithm: Octet, psiThetaPhi: Rotator, ecef: Vec3, g: FrameGeometry, l: FloatLayout,
                            littleEndian: bool, sqrt: real -> real)
    requires ExactLayout(l) && QuaternionAlgorithm(algorithm)
    ensures var q := Canonical(g.quaternion(psiThetaPhi));
            var s := OtherParametersFor(algorithm, psiThetaPhi, ecef, g, l);
            LocalQuaternion(s, l, littleEndian, sqrt) ==
              Some(Quaternion(q.x, q.y, q.z, ScalarPart(q.x, q.y, q.z, sqrt))) &&
            s[1] as int * 0x100 + s[2] as int == StoredQu0(q.w) &&
            LocalEulerAngles(s, l, littleEndian) == None
  {
    var q := Canonical(g.quaternion(psiThetaPhi));
    var s := OtherParametersFor(algorithm, psiThetaPhi, ecef, g, l);
    assert s[3..7] == l.bigEndian(q.x);
    assert s[7..11] == l.bigEndian(q.y);
    assert s[11..15] == l.bigEndian(q.z);
    ReadersIgnoreMachineOrder(s, l, sqrt);
  }

  /** For any other algorithm both readers refuse the bytes. */
  lemma UnknownAlgorithmIsUnreadable(algorithm: Octet, psiThetaPhi: Rotator, ecef: Vec3, g: FrameGeometry,
                                     l: FloatLayout, littleEndian: bool, sqrt: real -> real)
    requires !EulerAlgorithm(algorithm) && !QuaternionAlgorithm(algorithm)
    ensures LocalEulerAngles(OtherParametersFor(algorithm, psiThetaPhi, ecef, g, l), l, littleEndian) == None
    ensures LocalQuaternion(OtherParametersFor(algorithm, psiThetaPhi, ecef, g, l), l, littleEndian, sqrt) == None
  {
    assert OtherParametersFor(algorithm, psiThetaPhi, ecef, g, l)[0] == 0;
  }

  /** Neither reader looks at bytes 1-2: the padding, or the 16-bit qu0 the quaternion reader recomputes. */
  lemma ReadersIgnoreBytesOneAndTwo(other: seq<Octet>, other': seq<Octet>, l: FloatLayout, littleEndian: bool,
                                    sqrt: real -> real)
    requires |other| == |other'| >= OtherParametersLength
    requires other[0] == other'[0] && other[3..15] == other'[3..15]
    ensures LocalEulerAngles(other, l, littleEndian) == LocalEulerAngles(other', l, littleEndian)
    ensures LocalQuaternion(other, l, littleEndian, sqrt) == LocalQuaternion(other', l, littleEndian, sqrt)
  {
    forall i | 3 <= i < 15
      ensures other[i] == other'[i]
    {
      assert other[i] == other[3..15][i - 3];
    }
    assert other[3..7] == other'[3..7];
    assert other[7..11] == other'[7..11];
    assert other[11..15] == other'[11..15];
  }
}
